/** Wake-ups: who wakes a waiter whose row is already decided, and who nobody wakes. */
module LifecycleWakeups {
  import opened Records
  import opened Tables
  import opened Holds
  import opened Lifecycle
  import opened LifecycleInvariant
  import opened LifecycleTheorems

  /** A decision on the action is between its UPDATE and its release. */
  ghost predicate ReleasingFor(s: System, r: nat, id: string) {
    r in s.decisions && s.decisions[r].phase == Releasing && s.decisions[r].id == id
  }

  ghost predicate WillWake(s: System, id: string) {
    id in s.missed || exists r :: ReleasingFor(s, r, id)
  }

  predicate Blocks(phase: Phase) {
    phase == AnnouncingPending || phase == Submitted || phase == Waiting
  }

  /** The waiter still sits in the map although its row is decided. */
  ghost predicate Stuck(s: System, id: string) {
    id in s.calls && Blocks(s.calls[id].phase) && id in s.holds.pending && Terminal(s.actions, id)
  }

  ghost predicate WakeupsOk(s: System) {
    forall id :: Stuck(s, id) ==> WillWake(s, id)
  }

  ghost predicate GoneFor(s: System, id: string) {
    && id in s.issued && id !in s.holds.pending
    && (id in s.calls ==> s.calls[id].phase == Cleared || s.calls[id].phase == Armed || s.calls[id].phase == Finished)
  }

  /** An id whose waiter has returned is gone from the map for good. */
  ghost predicate ReturnedOk(s: System) {
    forall i :: 0 <= i < |s.log| && s.log[i].WaitReturned? ==> GoneFor(s, s.log[i].id)
  }

  ghost predicate Second(s: System) {
    WakeupsOk(s) && ReturnedOk(s)
  }

  // ---- Gateway calls ----------------------------------------------------------

  /** A step of call `id` leaves everything about other ids alone. */
  ghost predicate OnlyAbout(s: System, t: System, id: string) {
    && t.decisions == s.decisions && s.missed <= t.missed && s.issued <= t.issued
    && (forall other :: other != id ==>
          && (other in t.calls <==> other in s.calls) && (other in s.calls ==> t.calls[other] == s.calls[other])
          && (other in t.holds.pending <==> other in s.holds.pending)
          && (Terminal(t.actions, other) <==> Terminal(s.actions, other)))
    && (t.log == s.log || (|t.log| == |s.log| + 1 && t.log[..|s.log|] == s.log
                           && (t.log[|s.log|].WaitReturned? ==> t.log[|s.log|].id == id)))
  }

  lemma {:induction false} AboutOneKeeps(s: System, t: System, id: string)
    requires Second(s) && OnlyAbout(s, t, id)
    requires Stuck(t, id) ==> WillWake(t, id)
    requires GoneFor(s, id) ==> GoneFor(t, id)
    requires t.log != s.log && t.log[|s.log|].WaitReturned? ==> GoneFor(t, id)
    ensures Second(t)
  {
    forall other | Stuck(t, other) ensures WillWake(t, other) {
      if other != id {
        assert Stuck(s, other);
        if other !in s.missed {
          var r :| ReleasingFor(s, r, other);
          assert ReleasingFor(t, r, other);
        }
      }
    }
    forall i | 0 <= i < |t.log| && t.log[i].WaitReturned? ensures GoneFor(t, t.log[i].id) {
      if i < |s.log| {
        assert t.log[i] == s.log[i];
        assert GoneFor(s, t.log[i].id);
      }
    }
  }

  lemma {:induction false} SameWake(s: System, t: System, id: string)
    requires WillWake(s, id) && t.decisions == s.decisions && s.missed <= t.missed
    ensures WillWake(t, id)
  {
    if id !in s.missed {
      var r :| ReleasingFor(s, r, id);
      assert ReleasingFor(t, r, id);
    }
  }

  /** A step that only moves the call along leaves its wake-up as it was. */
  lemma {:induction false} PhaseMoveKeeps(s: System, t: System, id: string)
    requires Second(s) && id in s.calls && id in t.calls
    requires t == s.(calls := s.calls[id := t.calls[id]], log := t.log)
    requires t.log == s.log || (|t.log| == |s.log| + 1 && t.log[..|s.log|] == s.log && !t.log[|s.log|].WaitReturned?)
    requires Blocks(t.calls[id].phase) ==> Blocks(s.calls[id].phase)
    requires s.calls[id].phase == Cleared || s.calls[id].phase == Armed || s.calls[id].phase == Finished ==>
      t.calls[id].phase == Armed || t.calls[id].phase == Finished
    ensures Second(t)
  {
    if Stuck(t, id) { SameWake(s, t, id); }
    AboutOneKeeps(s, t, id);
  }

  lemma {:induction false} BeginStepWakes(c: Config, s: System, id: string, r: Request, now: real, t: System)
    requires Second(s) && s.calls.Keys <= s.issued && DoBeginCall(c, s, id, r, now) == Some(t)
    ensures Second(t)
  {
    AboutOneKeeps(s, t, id);
  }

  lemma {:induction false} InsertIsAboutOne(s: System, id: string, t: System)
    requires DoInsertRow(s, id) == Some(t) && s.calls[id].local.actionId == id
    ensures OnlyAbout(s, t, id) && t.log == s.log && !Stuck(t, id) && !GoneFor(s, id)
  {
  }

  lemma {:induction false} InsertStepWakes(s: System, id: string, t: System)
    requires Second(s) && DoInsertRow(s, id) == Some(t) && s.calls[id].local.actionId == id
    ensures Second(t)
  {
    InsertIsAboutOne(s, id, t);
    AboutOneKeeps(s, t, id);
  }

  lemma {:induction false} RegisterStepWakes(c: Config, s: System, id: string, t: System)
    requires Second(s) && DoRegisterEvent(c, s, id) == Some(t) && id !in s.holds.pending
    ensures Second(t)
  {
    AboutOneKeeps(s, t, id);
  }

  lemma {:induction false} WaitStepWakes(c: Config, s: System, step: CallStep, t: System)
    requires Second(s) && TakeCall(c, s, step) == Some(t)
    requires step.AnnouncePending? || step.EnterWait?
    ensures Second(t)
  {
    PhaseMoveKeeps(s, t, step.id);
  }

  lemma {:induction false} LookStepWakes(c: Config, s: System, step: CallStep, t: System)
    requires Second(s) && TakeCall(c, s, step) == Some(t)
    requires step.LookUp? || step.TimeOut?
    ensures Second(t)
  {
    PhaseMoveKeeps(s, t, step.id);
  }

  lemma {:induction false} LeaveStepWakes(c: Config, s: System, step: CallStep, t: System)
    requires Second(s) && TakeCall(c, s, step) == Some(t)
    requires step.Wake? || step.Expire? || step.LeaveWait?
    ensures Second(t)
  {
    AboutOneKeeps(s, t, step.id);
  }

  lemma {:induction false} ReadStepWakes(c: Config, s: System, step: CallStep, t: System)
    requires Second(s) && TakeCall(c, s, step) == Some(t)
    requires step.ReadBack?
    ensures Second(t)
  {
    var id := step.id;
    assert id in s.calls && s.calls[id].phase.Reading?;
    assert t == s.(calls := s.calls[id := t.calls[id]]) && !Blocks(t.calls[id].phase);
    PhaseMoveKeeps(s, t, id);
  }

  lemma {:induction false} ExpiryStepWakes(c: Config, s: System, step: CallStep, t: System)
    requires Second(s) && TakeCall(c, s, step) == Some(t)
    requires step.AnnounceExpiry?
    ensures Second(t)
  {
    PhaseMoveKeeps(s, t, step.id);
  }

  lemma {:induction false} RunStepWakes(c: Config, s: System, step: CallStep, t: System)
    requires Second(s) && TakeCall(c, s, step) == Some(t)
    requires step.CaptureNothing? || step.Forward?
    ensures Second(t)
  {
    PhaseMoveKeeps(s, t, step.id);
  }

  lemma {:induction false} CaptureStepWakes(c: Config, s: System, step: CallStep, t: System)
    requires Second(s) && TakeCall(c, s, step) == Some(t) && step.CaptureImage?
    ensures Second(t)
  {
    AboutOneKeeps(s, t, step.id);
  }

  lemma {:induction false} CancelStepWakes(s: System, id: string, t: System)
    requires Second(s) && DoCancelCall(s, id) == Some(t)
    ensures Second(t)
  {
    AboutOneKeeps(s, t, id);
  }

  lemma {:induction false} ReturnStepWakes(s: System, id: string, t: System)
    requires Second(s) && DoReturnDecision(s, id) == Some(t) && id in s.issued && id !in s.holds.pending
    ensures Second(t)
  {
    AboutOneKeeps(s, t, id);
  }

  lemma {:induction false} CallStepWakes(c: Config, s: System, step: CallStep, t: System)
    requires GateOk(c, s) && Second(s) && TakeCall(c, s, step) == Some(t)
    ensures Second(t)
  {
    if step.BeginCall? {
      BeginStepWakes(c, s, step.id, step.request, step.now, t);
    } else if step.InsertRow? {
      assert CallOk(c, s.actions, s.holds, step.id, s.calls[step.id]);
      InsertStepWakes(s, step.id, t);
    } else if step.RegisterEvent? {
      assert CallOk(c, s.actions, s.holds, step.id, s.calls[step.id]);
      RegisterStepWakes(c, s, step.id, t);
    } else if step.AnnouncePending? || step.EnterWait? {
      WaitStepWakes(c, s, step, t);
    } else if step.LookUp? || step.TimeOut? {
      LookStepWakes(c, s, step, t);
    } else if step.Wake? || step.Expire? || step.LeaveWait? {
      LeaveStepWakes(c, s, step, t);
    } else if step.CaptureImage? {
      CaptureStepWakes(c, s, step, t);
    } else if step.CancelCall? {
      CancelStepWakes(s, step.id, t);
    } else if step.ReturnDecision? {
      assert CallOk(c, s.actions, s.holds, step.id, s.calls[step.id]);
      ReturnStepWakes(s, step.id, t);
    } else if step.ReadBack? {
      ReadStepWakes(c, s, step, t);
    } else if step.AnnounceExpiry? {
      ExpiryStepWakes(c, s, step, t);
    } else {
      RunStepWakes(c, s, step, t);
    }
  }

  // ---- Decisions --------------------------------------------------------------

  /** Whoever was going to wake the waiter still is, or has just done it. */
  ghost predicate WakersKept(s: System, t: System, r: nat) {
    && r in t.decisions && s.missed <= t.missed && t.decisions == s.decisions[r := t.decisions[r]]
    && t.holds.pending <= s.holds.pending
    && (r in s.decisions && s.decisions[r].phase == Releasing ==>
          s.decisions[r].id !in t.holds.pending || s.decisions[r].id in t.missed)
    && (forall id :: Terminal(t.actions, id) && !Terminal(s.actions, id) ==> ReleasingFor(t, r, id))
  }

  lemma {:induction false} DecisionMoveWakes(s: System, t: System, r: nat)
    requires Second(s) && WakersKept(s, t, r) && t.calls == s.calls && t.issued == s.issued
    requires t.log == s.log || (|t.log| == |s.log| + 1 && t.log[..|s.log|] == s.log && !t.log[|s.log|].WaitReturned?)
    ensures Second(t)
  {
    forall id | Stuck(t, id) ensures WillWake(t, id) {
      if Terminal(s.actions, id) {
        assert Stuck(s, id);
        if id !in s.missed {
          var q :| ReleasingFor(s, q, id);
          assert q != r ==> ReleasingFor(t, q, id);
        }
      } else {
        assert ReleasingFor(t, r, id);
      }
    }
    forall i | 0 <= i < |t.log| && t.log[i].WaitReturned? ensures GoneFor(t, t.log[i].id) {
      assert t.log[i] == s.log[i];
    }
  }

  lemma {:induction false} DecisionStepWakes(s: System, step: DecisionStep, t: System)
    requires Second(s) && TakeDecision(s, step) == Some(t)
    ensures Second(t)
  {
    assert WakersKept(s, t, step.r);
    DecisionMoveWakes(s, t, step.r);
  }

  // ---- Undo requests and the system -------------------------------------------

  lemma {:induction false} QuietKeeps(s: System, t: System)
    requires Second(s) && t.calls == s.calls && t.decisions == s.decisions && t.holds == s.holds && t.missed == s.missed
    requires s.issued <= t.issued
    requires forall id :: id in s.calls && Terminal(t.actions, id) ==> Terminal(s.actions, id)
    requires t.log == s.log || (|t.log| == |s.log| + 1 && t.log[..|s.log|] == s.log && !t.log[|s.log|].WaitReturned?)
    ensures Second(t)
  {
    forall id | Stuck(t, id) ensures WillWake(t, id) {
      SameWake(s, t, id);
    }
    forall i | 0 <= i < |t.log| && t.log[i].WaitReturned? ensures GoneFor(t, t.log[i].id) {
      assert t.log[i] == s.log[i];
    }
  }

  lemma {:induction false} UndoRecordWakes(c: Config, s: System, t: System, u: nat, undoId: string)
    requires Second(s) && RowRecorded(c, s, t, u, undoId)
    ensures Second(t)
  {
    QuietKeeps(s, t);
  }

  lemma {:induction false} UndoStepLogs(s: System, step: UndoStep, t: System)
    requires TakeUndo(s, step) == Some(t) && !step.UndoRecord?
    ensures t.log == s.log || (|t.log| == |s.log| + 1 && t.log[..|s.log|] == s.log && !t.log[|s.log|].WaitReturned?)
  {
    if step.UndoMark? || step.UndoCall? || step.UndoAnnounce? {
      assert t.log != s.log ==> t.log == s.log + [t.log[|s.log|]];
    } else {
      assert t.log == s.log;
    }
  }

  lemma {:induction false} UndoStepWakes(c: Config, s: System, step: UndoStep, t: System)
    requires RowsOk(c, s.actions) && UndosOk(s) && Second(s) && TakeUndo(s, step) == Some(t)
    ensures Second(t)
  {
    if step.UndoRecord? {
      RecordingRecords(c, s, t, step.u, step.now);
      UndoRecordWakes(c, s, t, step.u, s.undos[step.u].phase.undoId);
    } else {
      UndoStepFrame(s, step, t);
      UndoStepLogs(s, step, t);
      QuietKeeps(s, t);
    }
  }

  lemma {:induction false} SystemStepWakes(c: Config, s: System, step: SystemStep, t: System)
    requires ModeOk(s) && Second(s) && TakeSystem(s, step) == Some(t)
    ensures Second(t)
  {
    if step.Crash? {
      assert t.calls == map[] && t.log == s.log;
    } else {
      QuietKeeps(s, t);
    }
  }

  lemma {:induction false} StepWakes(c: Config, s: System, step: Step, t: System)
    requires Inv(c, s) && Second(s) && Take(c, s, step) == Some(t)
    ensures Second(t)
  {
    match step
    case OfCall(m) => CallStepWakes(c, s, m, t);
    case OfDecision(m) => DecisionStepWakes(s, m, t);
    case OfUndo(m) => UndoStepWakes(c, s, m, t);
    case OfSystem(m) => SystemStepWakes(c, s, m, t);
  }

  lemma {:induction false} NextWakes(c: Config, s: System, t: System)
    requires Inv(c, s) && Second(s) && Next(c, s, t)
    ensures Second(t)
  {
    var step :| Take(c, s, step) == Some(t);
    StepWakes(c, s, step, t);
  }

  lemma {:induction false} RunStepsWake(c: Config, run: seq<System>, i: nat)
    requires IsRun(c, run) && i + 1 < |run| && Second(run[i])
    ensures Second(run[i + 1])
  {
    RunKeeps(c, run, i);
    RunSteps(c, run, i);
    NextWakes(c, run[i], run[i + 1]);
  }

  lemma {:induction false} RunWakes(c: Config, run: seq<System>, i: nat)
    requires IsRun(c, run) && i < |run|
    ensures Second(run[i])
  {
    if i > 0 {
      RunWakes(c, run, i - 1);
      RunStepsWake(c, run, i - 1);
    }
  }

  // ---- What sets an event, and what makes a wake-up miss ----------------------

  /** The step registers the event of a row that is already decided, or cancels a decision
      between its UPDATE and its release. */
  ghost predicate Misses(c: Config, s: System, t: System, id: string) {
    || (DoRegisterEvent(c, s, id) == Some(t) && Terminal(s.actions, id))
    || exists r :: ReleasingFor(s, r, id) && DoCancelDecide(s, r) == Some(t)
  }

  /** The step is the release of a decision on the action. */
  ghost predicate Releases(s: System, t: System, id: string) {
    exists r :: ReleasingFor(s, r, id) && DoDecideRelease(s, r) == Some(t)
  }

  ghost predicate FlagSet(h: HoldMap, id: string) {
    id in h.flags && h.flags[id]
  }

  /** The step misses no wake-up and sets no event. */
  ghost predicate Silent(s: System, t: System) {
    t.missed == s.missed && forall id :: FlagSet(t.holds, id) ==> FlagSet(s.holds, id)
  }

  lemma {:induction false} EarlyStepsAreSilent(c: Config, s: System, step: CallStep, t: System)
    requires TakeCall(c, s, step) == Some(t) && Early(step) && !step.RegisterEvent?
    ensures Silent(s, t)
  {
  }

  lemma {:induction false} LeavingStepsAreSilent(c: Config, s: System, step: CallStep, t: System)
    requires TakeCall(c, s, step) == Some(t)
    requires step.InsertRow? || step.Expire? || step.LeaveWait? || step.CancelCall? || step.CaptureImage?
    ensures Silent(s, t)
  {
  }

  lemma {:induction false} LateStepsAreSilent(c: Config, s: System, step: CallStep, t: System)
    requires TakeCall(c, s, step) == Some(t) && TouchesNoTable(step) && !Early(step)
    requires !step.LeaveWait? && !step.CancelCall?
    ensures Silent(s, t)
  {
  }

  lemma {:induction false} RegistrationMisses(c: Config, s: System, id: string, t: System)
    requires DoRegisterEvent(c, s, id) == Some(t)
    ensures forall x :: x in t.missed && x !in s.missed ==> Misses(c, s, t, x)
    ensures forall x :: FlagSet(t.holds, x) ==> FlagSet(s.holds, x)
  {
  }

  lemma {:induction false} CancelledDecisionMisses(c: Config, s: System, r: nat, t: System)
    requires DoCancelDecide(s, r) == Some(t)
    ensures t.holds == s.holds && forall x :: x in t.missed && x !in s.missed ==> Misses(c, s, t, x)
  {
    forall x | x in t.missed && x !in s.missed ensures Misses(c, s, t, x) {
      assert ReleasingFor(s, r, x);
    }
  }

  lemma {:induction false} ReleaseSets(s: System, r: nat, t: System)
    requires DoDecideRelease(s, r) == Some(t)
    ensures t.missed == s.missed
    ensures forall x :: FlagSet(t.holds, x) && !FlagSet(s.holds, x) ==> Releases(s, t, x)
  {
    forall x | FlagSet(t.holds, x) && !FlagSet(s.holds, x) ensures Releases(s, t, x) {
      assert ReleasingFor(s, r, x);
    }
  }

  lemma {:induction false} OtherDecisionStepsAreSilent(s: System, step: DecisionStep, t: System)
    requires TakeDecision(s, step) == Some(t) && !step.DecideRelease? && !step.CancelDecide?
    ensures Silent(s, t)
  {
  }

  lemma {:induction false} UndoStepsAreSilent(s: System, step: UndoStep, t: System)
    requires TakeUndo(s, step) == Some(t)
    ensures t.missed == s.missed && t.holds == s.holds
  {
    if !step.UndoRecord? { UndoStepFrame(s, step, t); }
  }

  lemma {:induction false} SystemStepsAreSilent(s: System, step: SystemStep, t: System)
    requires TakeSystem(s, step) == Some(t)
    ensures Silent(s, t)
  {
  }

  lemma {:induction false} CallStepCauses(c: Config, s: System, step: CallStep, t: System, id: string)
    requires TakeCall(c, s, step) == Some(t)
    ensures id in t.missed && id !in s.missed ==> Misses(c, s, t, id)
    ensures FlagSet(t.holds, id) ==> FlagSet(s.holds, id)
  {
    if step.RegisterEvent? {
      RegistrationMisses(c, s, step.id, t);
    } else if Early(step) {
      EarlyStepsAreSilent(c, s, step, t);
    } else if step.InsertRow? || step.Expire? || step.LeaveWait? || step.CancelCall? || step.CaptureImage? {
      LeavingStepsAreSilent(c, s, step, t);
    } else {
      LateStepsAreSilent(c, s, step, t);
    }
  }

  lemma {:induction false} DecisionStepCauses(c: Config, s: System, step: DecisionStep, t: System, id: string)
    requires TakeDecision(s, step) == Some(t)
    ensures id in t.missed && id !in s.missed ==> Misses(c, s, t, id)
    ensures FlagSet(t.holds, id) && !FlagSet(s.holds, id) ==> Releases(s, t, id)
  {
    if step.DecideRelease? {
      ReleaseSets(s, step.r, t);
    } else if step.CancelDecide? {
      CancelledDecisionMisses(c, s, step.r, t);
    } else {
      OtherDecisionStepsAreSilent(s, step, t);
    }
  }

  /** A wake-up goes missing, and an event is set, for no other reason than these. */
  lemma {:induction false} StepCauses(c: Config, s: System, t: System, id: string)
    requires Next(c, s, t)
    ensures id in t.missed && id !in s.missed ==> Misses(c, s, t, id)
    ensures FlagSet(t.holds, id) && !FlagSet(s.holds, id) ==> Releases(s, t, id)
  {
    var step :| Take(c, s, step) == Some(t);
    match step
    case OfCall(m) => CallStepCauses(c, s, m, t, id);
    case OfDecision(m) => DecisionStepCauses(c, s, m, t, id);
    case OfUndo(m) => UndoStepsAreSilent(s, m, t);
    case OfSystem(m) => SystemStepsAreSilent(s, m, t);
  }

  ghost predicate MissesAt(c: Config, run: seq<System>, k: nat, id: string) {
    k + 1 < |run| && Misses(c, run[k], run[k + 1], id)
  }

  ghost predicate ReleasesAt(run: seq<System>, k: nat, id: string) {
    k + 1 < |run| && Releases(run[k], run[k + 1], id)
  }

  lemma {:induction false} RunStepCauses(c: Config, run: seq<System>, k: nat, id: string)
    requires IsRun(c, run) && k + 1 < |run|
    ensures id in run[k + 1].missed && id !in run[k].missed ==> MissesAt(c, run, k, id)
    ensures FlagSet(run[k + 1].holds, id) && !FlagSet(run[k].holds, id) ==> ReleasesAt(run, k, id)
  {
    RunSteps(c, run, k);
    StepCauses(c, run[k], run[k + 1], id);
  }

  lemma {:induction false} MissedHasCause(c: Config, run: seq<System>, i: nat, id: string)
    requires IsRun(c, run) && i < |run| && id in run[i].missed
    ensures exists k :: 0 <= k < i && MissesAt(c, run, k, id)
  {
    if i > 0 {
      RunStepCauses(c, run, i - 1, id);
      if id in run[i - 1].missed {
        MissedHasCause(c, run, i - 1, id);
      }
    }
  }

  // ---- Theorems ---------------------------------------------------------------

  /** Once `wait_for_decision` has returned for an action, its id is in the map no more. */
  lemma {:induction false} ReturnedWaiterIsGone(c: Config, run: seq<System>, i: nat, id: string, o: Outcome)
    requires IsRun(c, run) && i < |run| && WaitReturned(id, o) in run[i].log
    ensures id !in run[i].holds.pending
  {
    RunWakes(c, run, i);
    var m :| 0 <= m < |run[i].log| && run[i].log[m] == WaitReturned(id, o);
    assert GoneFor(run[i], run[i].log[m].id);
  }

  /** An event that is set was set by the release of a decision on its action. */
  lemma {:induction false} WokenOnlyByADecision(c: Config, run: seq<System>, i: nat, j: nat, id: string)
    requires IsRun(c, run) && i <= j < |run| && !FlagSet(run[i].holds, id) && FlagSet(run[j].holds, id)
    ensures exists k :: i <= k < j && ReleasesAt(run, k, id)
    decreases j
  {
    RunStepCauses(c, run, j - 1, id);
    if FlagSet(run[j - 1].holds, id) {
      WokenOnlyByADecision(c, run, i, j - 1, id);
    }
  }

  /** A blocked waiter whose row is decided has its event set, or a decision is about to set
      it, unless an earlier step missed the wake-up: it registered the event when the row was
      already decided, or cancelled a decision between its UPDATE and its release. */
  lemma {:induction false} WakeupIsLostOnlyIfMissed(c: Config, run: seq<System>, i: nat, id: string)
    requires IsRun(c, run) && i < |run|
    requires id in run[i].calls && run[i].calls[id].phase == Waiting && Terminal(run[i].actions, id)
    ensures id in run[i].holds.flags
    ensures run[i].holds.flags[id] || (exists r :: ReleasingFor(run[i], r, id))
            || exists k :: 0 <= k < i && MissesAt(c, run, k, id)
  {
    RunKeeps(c, run, i);
    RunWakes(c, run, i);
    assert CallOk(c, run[i].actions, run[i].holds, id, run[i].calls[id]);
    if !run[i].holds.flags[id] {
      assert Stuck(run[i], id);
      if id in run[i].missed {
        MissedHasCause(c, run, i, id);
      }
    }
  }

  /** A decision that lands between the insert and the registration of the event. */
  ghost predicate EarlyDecision(c: Config, s: System, id: string, r: nat) {
    && CallAt(s, id, Inserted) && s.calls[id].risk.riskLevel in c.heldRiskLevels
    && DecisionAt(s, r, Updating) && s.decisions[r].id == id
    && Resolves(s.actions, id)
  }

  /** A new action of a held level, with a first decision on it about to run its UPDATE. */
  function EarlyState(r: Request, id: string, who: string): System {
    var row := NewAction(r, id, true, 0.0);
    INIT.(mode := Serving, actions := map[id := row], issued := {id}, calls := map[id := Call(Inserted, row, r.risk)],
          decisions := map[0 := Decision(id, true, who, Updating)])
  }

  lemma {:induction false} SubmittedEarly(c: Config, run: seq<System>, r: Request, id: string)
      returns (longer: seq<System>)
    requires IsRun(c, run) && run[|run| - 1] == INIT.(mode := Serving)
    requires r.risk.riskLevel in c.heldRiskLevels && r.risk.ruleId != UNDO_RULE
    ensures IsRun(c, longer)
    ensures var row := NewAction(r, id, true, 0.0);
      longer[|longer| - 1] == INIT.(mode := Serving, actions := map[id := row], issued := {id},
        calls := map[id := Call(Inserted, row, r.risk)])
  {
    RunOn(c, run, OfCall(BeginCall(id, r, 0.0)));
    longer := run + [DoBeginCall(c, run[|run| - 1], id, r, 0.0).value];
    RunOn(c, longer, OfCall(InsertRow(id)));
    longer := longer + [DoInsertRow(longer[|longer| - 1], id).value];
    var row := NewAction(r, id, true, 0.0);
    assert longer[|longer| - 1].actions == map[id := row];
    assert longer[|longer| - 1].calls == map[id := Call(Inserted, row, r.risk)];
  }

  /** An early decision does occur: there is a run to it for every request of a held level. */
  lemma {:induction false} EarlyDecisionHappens(c: Config, r: Request, id: string, who: string)
      returns (run: seq<System>)
    requires r.risk.riskLevel in c.heldRiskLevels && r.risk.ruleId != UNDO_RULE
    ensures IsRun(c, run) && run[|run| - 1] == EarlyState(r, id, who)
    ensures EarlyDecision(c, EarlyState(r, id, who), id, 0)
  {
    run := FirstServing(c);
    run := SubmittedEarly(c, run, r, id);
    RunOn(c, run, OfDecision(BeginDecide(0, id, true, who)));
    run := run + [DoBeginDecide(run[|run| - 1], 0, id, true, who).value];
    RunOn(c, run, OfDecision(DecideCheck(0)));
    run := run + [DoDecideCheck(run[|run| - 1], 0).value];
    assert run[|run| - 1].decisions == EarlyState(r, id, who).decisions;
  }

  function AfterRegistration(c: Config, s: System, id: string): Option<System> {
    match DoRegisterEvent(c, s, id)
    case None => None
    case Some(s1) =>
      match DoAnnouncePending(s1, id)
      case None => None
      case Some(s2) => DoEnterWait(s2, id)
  }

  /** The decision runs to its release, then the call registers its event and waits. */
  function AfterEarlyDecision(c: Config, s: System, id: string, r: nat, now: real): Option<System> {
    match DoDecideUpdate(s, r, now)
    case None => None
    case Some(s1) =>
      match DoDecideRelease(s1, r)
      case None => None
      case Some(s2) => AfterRegistration(c, s2, id)
  }

  /** The waiter times out, loses the race for the row, and reads it back. */
  function AfterTimeout(s: System, id: string, now: real): Option<System> {
    match DoTimeOut(s, id)
    case None => None
    case Some(s1) =>
      match DoExpire(s1, id, now)
      case None => None
      case Some(s2) =>
        match DoLeaveWait(s2, id)
        case None => None
        case Some(s3) => DoReadBack(s3, id)
  }

  /** A decision on the action that may still release its event. */
  ghost predicate CouldWake(s: System, r: nat, id: string) {
    r in s.decisions && s.decisions[r].id == id
    && (s.decisions[r].phase == Checking || s.decisions[r].phase == Updating || s.decisions[r].phase == Releasing)
  }

  /** All decisions that could wake the waiter still can, but one that has passed by. */
  ghost predicate PassedBy(s: System, t: System, id: string, r: nat) {
    forall q :: CouldWake(t, q, id) <==> q != r && CouldWake(s, q, id)
  }

  /** The decision has been and gone, and found no event. */
  lemma {:induction false} DecidedEarly(c: Config, s: System, id: string, r: nat, now: real) returns (t: System)
    requires EarlyDecision(c, s, id, r) && id !in s.holds.pending
    ensures DoDecideUpdate(s, r, now).Some? && DoDecideRelease(DoDecideUpdate(s, r, now).value, r) == Some(t)
    ensures t == s.(actions := ResolveAction(s.actions, id, Decided(s.decisions[r].approved, s.decisions[r].decidedBy,
      now)),
                    decisions := t.decisions)
    ensures PassedBy(s, t, id, r)
  {
    var s1 := DoDecideUpdate(s, r, now).value;
    t := DoDecideRelease(s1, r).value;
  }

  /** The waiter of the action blocks on an event that is not set, with all else as it was. */
  ghost predicate BlockedOn(s: System, t: System, id: string) {
    CallAt(t, id, Waiting) && t.actions == s.actions && t.decisions == s.decisions
    && DoWake(t, id).None? && id in t.holds.pending && !FlagSet(t.holds, id)
  }

  lemma {:induction false} RegistersLate(c: Config, s: System, id: string)
    requires CallAt(s, id, Inserted) && s.calls[id].risk.riskLevel in c.heldRiskLevels
    requires s.calls[id].local.status == PENDING
    ensures AfterRegistration(c, s, id).Some? && BlockedOn(s, AfterRegistration(c, s, id).value, id)
  {
  }

  lemma {:induction false} InsertedHeld(c: Config, s: System, id: string)
    requires GateOk(c, s) && CallAt(s, id, Inserted) && s.calls[id].risk.riskLevel in c.heldRiskLevels
    ensures id !in s.holds.pending && s.calls[id].local.status == PENDING
  {
    assert CallOk(c, s.actions, s.holds, id, s.calls[id]);
  }

  lemma {:induction false} MissedEarly(c: Config, s: System, id: string, r: nat, now: real)
    requires EarlyDecision(c, s, id, r) && id !in s.holds.pending && s.calls[id].local.status == PENDING
    ensures AfterEarlyDecision(c, s, id, r, now).Some?
    ensures var end := AfterEarlyDecision(c, s, id, r, now).value;
      && CallAt(end, id, Waiting) && DoWake(end, id).None? && !FlagSet(end.holds, id)
      && id in end.actions
      && OutcomeOf(end.actions[id]) == Decided(s.decisions[r].approved, s.decisions[r].decidedBy, now)
      && PassedBy(s, end, id, r)
  {
    var t := DecidedEarly(c, s, id, r, now);
    RegistersLate(c, t, id);
  }

  ghost predicate RegistersAt(c: Config, run: seq<System>, k: nat, id: string) {
    k + 1 < |run| && DoRegisterEvent(c, run[k], id) == Some(run[k + 1])
  }

  lemma {:induction false} RegistersUnset(c: Config, s: System, id: string, t: System)
    requires GateOk(c, s) && DoRegisterEvent(c, s, id) == Some(t)
    ensures !FlagSet(t.holds, id)
  {
    assert CallOk(c, s.actions, s.holds, id, s.calls[id]);
  }

  lemma {:induction false} UnsetDoesNotWake(s: System, id: string)
    requires !FlagSet(s.holds, id)
    ensures DoWake(s, id).None?
  {
  }

  /** In every run, an event that is registered when its row is already decided stays unset, and
      its waiter is not woken, until a step releases a decision on the action; the row's outcome
      stays what the early decision made it. */
  lemma {:induction false} EarlyDecisionIsMissed(c: Config, run: seq<System>, k: nat, j: nat, id: string)
    requires IsRun(c, run) && k < j < |run| && RegistersAt(c, run, k, id) && Terminal(run[k].actions, id)
    ensures FlagSet(run[j].holds, id) || DoWake(run[j], id).Some? ==> exists m :: k < m < j && ReleasesAt(run, m, id)
    ensures Terminal(run[j].actions, id) && OutcomeOf(run[j].actions[id]) == OutcomeOf(run[k].actions[id])
  {
    RunKeeps(c, run, k);
    RegistersUnset(c, run[k], id, run[k + 1]);
    OutcomeIsFinal(c, run, k, j, id);
    if FlagSet(run[j].holds, id) {
      WokenOnlyByADecision(c, run, k + 1, j, id);
    } else {
      UnsetDoesNotWake(run[j], id);
    }
  }

  /** From any state of any run with an early decision, the waiter comes to block on an event that
      this decision will never set. What may still set it are exactly the other decisions on the
      action that are on their way. */
  lemma {:induction false} EarlyDecisionBlocks(c: Config, run: seq<System>, i: nat, id: string, r: nat, now: real)
    requires IsRun(c, run) && i < |run| && EarlyDecision(c, run[i], id, r)
    ensures AfterEarlyDecision(c, run[i], id, r, now).Some?
    ensures var end := AfterEarlyDecision(c, run[i], id, r, now).value;
      && CallAt(end, id, Waiting) && DoWake(end, id).None? && !FlagSet(end.holds, id)
      && id in end.actions
      && OutcomeOf(end.actions[id]) == Decided(run[i].decisions[r].approved, run[i].decisions[r].decidedBy, now)
      && PassedBy(run[i], end, id, r)
  {
    RunKeeps(c, run, i);
    InsertedHeld(c, run[i], id);
    MissedEarly(c, run[i], id, r, now);
  }

  /** Still, when its timeout fires the waiter comes back with that decision, not with EXPIRED. */
  lemma {:induction false} MissedDecisionStillCounts(c: Config, s: System, id: string, now: real)
    requires CallAt(s, id, Waiting) && Terminal(s.actions, id)
    ensures var end := AfterTimeout(s, id, now);
      end.Some? && CallAt(end.value, id, AnnouncingExpiry) && end.value.actions == s.actions
      && end.value.calls[id].local == s.actions[id] && id !in end.value.holds.pending
  {
  }
}
