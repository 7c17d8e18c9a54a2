/** What calls come to: a call that is left alone ends, and it is executed exactly when its row is
    let through; and a call that has ended uncancelled was executed exactly then. */
module LifecycleProgress {
  import opened Records
  import opened Tables
  import opened Holds
  import opened Lifecycle
  import opened LifecycleInvariant
  import opened LifecycleTheorems
  import opened LifecycleExecution
  import opened LifecycleWakeups

  // ---- Calls that are left alone ----------------------------------------------

  /** The step a call takes next when nobody cancels it; an unset event lets its timeout fire. */
  function NextStep(s: System, id: string, now: real): CallStep
    requires id in s.calls
  {
    match s.calls[id].phase
    case Inserting => InsertRow(id)
    case Inserted => RegisterEvent(id)
    case AnnouncingPending => AnnouncePending(id)
    case Submitted => EnterWait(id)
    case Looking => LookUp(id)
    case Waiting => if id in s.holds.flags && s.holds.flags[id] then Wake(id) else TimeOut(id)
    case TimedOut => Expire(id, now)
    case Leaving => LeaveWait(id)
    case Reading(_) => ReadBack(id)
    case AnnouncingExpiry => AnnounceExpiry(id)
    case Returning => ReturnDecision(id)
    case Cleared => CaptureNothing(id)
    case Armed => Forward(id)
    case Finished => CancelCall(id)
  }

  /** How far a call is from its end. */
  function StepsLeft(phase: Phase): nat {
    match phase
    case Inserting => 13
    case Inserted => 12
    case AnnouncingPending => 11
    case Submitted => 10
    case Waiting => 9
    case TimedOut => 8
    case Leaving => 7
    case Reading(_) => 6
    case Looking => 5
    case AnnouncingExpiry => 5
    case Returning => 4
    case Cleared => 3
    case Armed => 2
    case Finished => 0
  }

  ghost predicate Alive(s: System, id: string) {
    s.mode.Serving? && id in s.calls && s.calls[id].phase != Finished
  }

  /** The status the row ends with if nobody decides on it any more. */
  function FinalStatus(c: Config, s: System, id: string): Status
    requires id in s.calls
  {
    if id in s.actions then if s.actions[id].status == PENDING then EXPIRED else s.actions[id].status
    else if s.calls[id].risk.riskLevel in c.heldRiskLevels then EXPIRED
    else AUTO_ALLOWED
  }

  /** The call has moved one step towards the end that is laid out for it. */
  ghost predicate MovesOn(c: Config, s: System, t: System, id: string) {
    && t.mode.Serving? && id in s.calls && id in t.calls
    && StepsLeft(t.calls[id].phase) < StepsLeft(s.calls[id].phase)
    && FinalStatus(c, t, id) == FinalStatus(c, s, id)
    && (t.calls[id].phase == Finished ==>
          Terminal(t.actions, id) && (Forwarded(id) in t.log || !Executable(t.actions[id].status)))
  }

  lemma {:induction false} InsertsOn(c: Config, s: System, id: string)
    requires CallContext(c, s, id) && CallAt(s, id, Inserting)
    ensures DoInsertRow(s, id).Some? && MovesOn(c, s, DoInsertRow(s, id).value, id)
  {
  }

  lemma {:induction false} RegistersOn(c: Config, s: System, id: string)
    requires CallContext(c, s, id) && CallAt(s, id, Inserted)
    ensures DoRegisterEvent(c, s, id).Some? && MovesOn(c, s, DoRegisterEvent(c, s, id).value, id)
  {
  }

  lemma {:induction false} AnnouncesOn(c: Config, s: System, id: string)
    requires CallContext(c, s, id) && CallAt(s, id, AnnouncingPending)
    ensures DoAnnouncePending(s, id).Some? && MovesOn(c, s, DoAnnouncePending(s, id).value, id)
  {
  }

  lemma {:induction false} EntersOn(c: Config, s: System, id: string)
    requires CallContext(c, s, id) && CallAt(s, id, Submitted)
    ensures DoEnterWait(s, id).Some? && MovesOn(c, s, DoEnterWait(s, id).value, id)
  {
  }

  lemma {:induction false} LooksOn(c: Config, s: System, id: string)
    requires CallContext(c, s, id) && CallAt(s, id, Looking)
    ensures DoLookUp(s, id).Some? && MovesOn(c, s, DoLookUp(s, id).value, id)
  {
  }

  lemma {:induction false} WakesOn(c: Config, s: System, id: string)
    requires CallContext(c, s, id) && CallAt(s, id, Waiting) && FlagSet(s.holds, id)
    ensures DoWake(s, id).Some? && MovesOn(c, s, DoWake(s, id).value, id)
  {
  }

  lemma {:induction false} TimesOut(c: Config, s: System, id: string)
    requires CallContext(c, s, id) && CallAt(s, id, Waiting)
    ensures DoTimeOut(s, id).Some? && MovesOn(c, s, DoTimeOut(s, id).value, id)
  {
  }

  lemma {:induction false} ExpiresOn(c: Config, s: System, id: string, now: real)
    requires CallContext(c, s, id) && CallAt(s, id, TimedOut)
    ensures DoExpire(s, id, now).Some? && MovesOn(c, s, DoExpire(s, id, now).value, id)
  {
  }

  lemma {:induction false} LeavesOn(c: Config, s: System, id: string)
    requires CallContext(c, s, id) && CallAt(s, id, Leaving)
    ensures DoLeaveWait(s, id).Some? && MovesOn(c, s, DoLeaveWait(s, id).value, id)
  {
  }

  lemma {:induction false} ReadsOn(c: Config, s: System, id: string)
    requires CallContext(c, s, id) && id in s.calls && s.calls[id].phase.Reading?
    ensures DoReadBack(s, id).Some? && MovesOn(c, s, DoReadBack(s, id).value, id)
  {
  }

  lemma {:induction false} TellsOn(c: Config, s: System, id: string)
    requires CallContext(c, s, id) && CallAt(s, id, AnnouncingExpiry)
    ensures DoAnnounceExpiry(s, id).Some? && MovesOn(c, s, DoAnnounceExpiry(s, id).value, id)
  {
  }

  lemma {:induction false} ReturnsOn(c: Config, s: System, id: string)
    requires CallContext(c, s, id) && CallAt(s, id, Returning)
    ensures DoReturnDecision(s, id).Some? && MovesOn(c, s, DoReturnDecision(s, id).value, id)
  {
    assert RowOk(c, id, s.actions[id]);
  }

  lemma {:induction false} ArmsOn(c: Config, s: System, id: string)
    requires CallContext(c, s, id) && CallAt(s, id, Cleared)
    ensures DoCaptureNothing(s, id).Some? && MovesOn(c, s, DoCaptureNothing(s, id).value, id)
  {
  }

  lemma {:induction false} ForwardsOn(c: Config, s: System, id: string)
    requires CallContext(c, s, id) && CallAt(s, id, Armed)
    ensures DoForward(s, id).Some? && MovesOn(c, s, DoForward(s, id).value, id)
  {
    assert DoForward(s, id).value.log[|s.log|] == Forwarded(id);
  }

  ghost predicate GoesOn(c: Config, s: System, next: Option<System>, id: string) {
    next.Some? && MovesOn(c, s, next.value, id)
  }

  lemma {:induction false} SubmitGoesOn(c: Config, s: System, id: string, now: real)
    requires CallContext(c, s, id) && Alive(s, id) && StepsLeft(s.calls[id].phase) >= 9
    ensures GoesOn(c, s, TakeCall(c, s, NextStep(s, id, now)), id)
  {
    match s.calls[id].phase
    case Inserting => InsertsOn(c, s, id);
    case Inserted => RegistersOn(c, s, id);
    case AnnouncingPending => AnnouncesOn(c, s, id);
    case Submitted => EntersOn(c, s, id);
    case Waiting => if FlagSet(s.holds, id) { WakesOn(c, s, id); } else { TimesOut(c, s, id); }
  }

  lemma {:induction false} WaitGoesOn(c: Config, s: System, id: string, now: real)
    requires CallContext(c, s, id) && 5 <= StepsLeft(s.calls[id].phase) <= 8
    ensures GoesOn(c, s, TakeCall(c, s, NextStep(s, id, now)), id)
  {
    match s.calls[id].phase
    case Looking => LooksOn(c, s, id);
    case TimedOut => ExpiresOn(c, s, id, now);
    case Leaving => LeavesOn(c, s, id);
    case Reading(_) => ReadsOn(c, s, id);
    case AnnouncingExpiry => TellsOn(c, s, id);
  }

  lemma {:induction false} GateGoesOn(c: Config, s: System, id: string, now: real)
    requires CallContext(c, s, id) && Alive(s, id) && StepsLeft(s.calls[id].phase) <= 4
    ensures GoesOn(c, s, TakeCall(c, s, NextStep(s, id, now)), id)
  {
    match s.calls[id].phase
    case Returning => ReturnsOn(c, s, id);
    case Cleared => ArmsOn(c, s, id);
    case Armed => ForwardsOn(c, s, id);
  }

  /** Alive, a call has a next step, and it moves on. */
  lemma {:induction false} CallMovesOn(c: Config, s: System, id: string, now: real)
    requires CallContext(c, s, id) && Alive(s, id)
    ensures GoesOn(c, s, TakeCall(c, s, NextStep(s, id, now)), id)
  {
    var left := StepsLeft(s.calls[id].phase);
    if left >= 9 {
      SubmitGoesOn(c, s, id, now);
    } else if left >= 5 {
      WaitGoesOn(c, s, id, now);
    } else {
      GateGoesOn(c, s, id, now);
    }
  }

  /** The step from k to k + 1 is one of the call's own, and no cancellation. */
  ghost predicate OwnStepAt(c: Config, run: seq<System>, k: nat, id: string) {
    k + 1 < |run| && exists step: CallStep ::
      step.id == id && !step.CancelCall? && TakeCall(c, run[k], step) == Some(run[k + 1])
  }

  /** The run goes on by steps of the call alone. */
  ghost predicate OnlyOwnSteps(c: Config, run: seq<System>, longer: seq<System>, id: string) {
    && run != [] && IsRun(c, longer) && run <= longer
    && forall k :: |run| - 1 <= k < |longer| - 1 ==> OwnStepAt(c, longer, k, id)
  }

  /** What a run ends in. */
  function Last(run: seq<System>): System
    requires run != []
  {
    run[|run| - 1]
  }

  /** The call has ended, with the row's status and the forward as laid out. */
  ghost predicate EndsWith(e: System, id: string, status: Status) {
    && CallAt(e, id, Finished) && Terminal(e.actions, id) && e.actions[id].status == status
    && (Forwarded(id) in e.log <==> status == APPROVED || status == AUTO_ALLOWED)
  }

  lemma {:induction false} EndedAsLaidOut(c: Config, s: System, t: System, id: string)
    requires Inv(c, t) && id in s.calls && MovesOn(c, s, t, id) && t.calls[id].phase == Finished
    ensures EndsWith(t, id, FinalStatus(c, s, id))
  {
    if Forwarded(id) in t.log {
      var m :| 0 <= m < |t.log| && t.log[m] == Forwarded(id);
      assert EventOk(t.actions, t.journal, t.log[m]);
    }
  }

  ghost predicate OneStepOn(c: Config, run: seq<System>, next: seq<System>, id: string) {
    && run != [] && |next| == |run| + 1 && next[..|run|] == run && IsRun(c, next)
    && OwnStepAt(c, next, |run| - 1, id) && MovesOn(c, Last(run), Last(next), id)
    && (Last(next).calls[id].phase == Finished ==> EndsWith(Last(next), id, FinalStatus(c, Last(run), id)))
  }

  lemma {:induction false} AliveHasContext(c: Config, s: System, id: string)
    requires GateOk(c, s) && Alive(s, id)
    ensures CallContext(c, s, id)
  {
  }

  lemma {:induction false} OwnStepTaken(c: Config, run: seq<System>, step: CallStep, id: string)
    requires run != [] && TakeCall(c, Last(run), step).Some? && step.id == id && !step.CancelCall?
    ensures OwnStepAt(c, run + [TakeCall(c, Last(run), step).value], |run| - 1, id)
  {
  }

  lemma {:induction false} GoesOneStep(c: Config, run: seq<System>, id: string, now: real) returns (next: seq<System>)
    requires IsRun(c, run) && Alive(Last(run), id)
    ensures OneStepOn(c, run, next, id)
  {
    RunKeeps(c, run, |run| - 1);
    AliveHasContext(c, Last(run), id);
    CallMovesOn(c, Last(run), id, now);
    var step := NextStep(Last(run), id, now);
    RunOn(c, run, OfCall(step));
    next := run + [TakeCall(c, Last(run), step).value];
    OwnStepTaken(c, run, step, id);
    if Last(next).calls[id].phase == Finished {
      RunKeeps(c, next, |run|);
      EndedAsLaidOut(c, Last(run), Last(next), id);
    }
  }

  lemma {:induction false} OneStepOnly(c: Config, run: seq<System>, next: seq<System>, id: string)
    requires OneStepOn(c, run, next, id)
    ensures OnlyOwnSteps(c, run, next, id)
  {
  }

  lemma {:induction false} OwnStepAgain(c: Config, run: seq<System>, longer: seq<System>, k: nat, id: string)
    requires run <= longer && k + 1 < |run| && OwnStepAt(c, run, k, id)
    ensures OwnStepAt(c, longer, k, id)
  {
  }

  lemma {:induction false} OwnStepFirst(c: Config, run: seq<System>, next: seq<System>, longer: seq<System>, id: string)
    requires OneStepOn(c, run, next, id) && OnlyOwnSteps(c, next, longer, id)
    ensures OnlyOwnSteps(c, run, longer, id)
  {
    assert run <= longer;
    forall k | |run| - 1 <= k < |longer| - 1 ensures OwnStepAt(c, longer, k, id) {
      if k == |run| - 1 { OwnStepAgain(c, next, longer, k, id); }
    }
  }

  /** From any state of any run, a call that nobody cancels and nobody decides on any more comes to
      its end by its own steps, and it is executed exactly when its row is, or is going to be,
      APPROVED or AUTO_ALLOWED; a row still PENDING expires. */
  lemma {:induction false} LeftAloneEnds(c: Config, run: seq<System>, id: string, now: real)
      returns (longer: seq<System>)
    requires IsRun(c, run) && Alive(Last(run), id)
    ensures OnlyOwnSteps(c, run, longer, id)
    ensures EndsWith(Last(longer), id, FinalStatus(c, Last(run), id))
    decreases StepsLeft(Last(run).calls[id].phase)
  {
    var next := GoesOneStep(c, run, id, now);
    if Last(next).calls[id].phase == Finished {
      OneStepOnly(c, run, next, id);
      longer := next;
    } else {
      longer := LeftAloneEnds(c, next, id, now);
      OwnStepFirst(c, run, next, longer, id);
    }
  }

  /** A cleared call that is compensable can journal any image of the three kinds, and goes on. */
  lemma {:induction false} CaptureGoesOn(c: Config, s: System, id: string, kind: string, payload: Payload, now: real)
    requires CallContext(c, s, id) && CallAt(s, id, Cleared) && s.calls[id].risk.reversibility == COMPENSABLE
    requires match payload
             case FilePayload(_, _) => kind == "fs"
             case RowsPayload(_, _) => kind == "db_rows"
             case TablePayload(_, _, _) => kind == "db_table"
    ensures GoesOn(c, s, DoCaptureImage(s, id, kind, payload, now), id)
    ensures var t := DoCaptureImage(s, id, kind, payload, now).value;
      id in t.journal && (id !in s.journal ==> t.journal[id] == JournalEntry(id, kind, payload, now, None, None))
  {
  }

  /** While the gateway serves, a call, a decision and an undo request can each be cancelled at any
      point: it ends there, and no row, journal entry or announcement changes. */
  lemma {:induction false} CancelsAnywhere(s: System, id: string, r: nat, u: nat)
    requires s.mode.Serving?
    ensures id in s.calls ==>
      var t := DoCancelCall(s, id);
      && t.Some? && t.value == s.(calls := s.calls[id := s.calls[id].(phase := Finished)], holds := t.value.holds)
      && t.value.holds.flags == s.holds.flags
    ensures r in s.decisions ==>
      var t := DoCancelDecide(s, r);
      && t.Some? && t.value.decisions == s.decisions[r := s.decisions[r].(phase := Answered)]
      && t.value == s.(decisions := t.value.decisions, missed := t.value.missed)
    ensures u in s.undos ==>
      DoCancelUndo(s, u) == Some(s.(undos := s.undos[u := s.undos[u].(phase := Closed)]))
  {
  }

  // ---- Calls that have ended --------------------------------------------------

  /** The step cancels the call before its end. */
  ghost predicate CancelledAt(run: seq<System>, k: nat, id: string) {
    k + 1 < |run| && Alive(run[k], id) && DoCancelCall(run[k], id) == Some(run[k + 1])
  }

  /** The call has ended as its row says. */
  ghost predicate EndedRight(s: System, id: string) {
    Terminal(s.actions, id) && (Forwarded(id) in s.log || s.actions[id].status == DENIED
                                || s.actions[id].status == EXPIRED)
  }

  ghost predicate IsOver(s: System, id: string) {
    id in s.calls && s.calls[id].phase == Finished
  }

  lemma {:induction false} EarlyDoesNotEnd(c: Config, s: System, step: CallStep, t: System)
    requires GateOk(c, s) && TakeCall(c, s, step) == Some(t) && Early(step) && step.id in s.calls
    ensures !IsOver(t, step.id)
  {
    assert CallOk(c, s.actions, s.holds, step.id, s.calls[step.id]);
  }

  lemma {:induction false} LateEndsRight(c: Config, s: System, step: CallStep, t: System)
    requires CallContext(c, s, step.id) && TakeCall(c, s, step) == Some(t) && !Early(step) && !step.CancelCall?
    requires IsOver(t, step.id)
    ensures EndedRight(t, step.id)
  {
    if step.Forward? {
      assert t.log[|s.log|] == Forwarded(step.id);
    }
  }

  lemma {:induction false} CallEndsRight(c: Config, s: System, step: CallStep, t: System, id: string)
    requires GateOk(c, s) && TakeCall(c, s, step) == Some(t) && IsOver(t, id) && !IsOver(s, id)
    ensures EndedRight(t, id) || DoCancelCall(s, id) == Some(t)
  {
    if step.id != id {
      OthersStay(c, s, step, t, id);
    } else if step.BeginCall? {
    } else if Early(step) {
      EarlyDoesNotEnd(c, s, step, t);
    } else if !step.CancelCall? {
      StepHasContext(c, s, step);
      LateEndsRight(c, s, step, t);
    }
  }

  lemma {:induction false} StepEndsRight(c: Config, s: System, t: System, id: string)
    requires Inv(c, s) && Next(c, s, t) && IsOver(t, id) && !IsOver(s, id)
    ensures Alive(s, id) || EndedRight(t, id)
    ensures EndedRight(t, id) || DoCancelCall(s, id) == Some(t)
  {
    var step :| Take(c, s, step) == Some(t);
    match step
    case OfCall(m) => CallEndsRight(c, s, m, t, id);
    case OfDecision(m) => DecisionStepMoves(c, s, m, t);
    case OfUndo(m) => UndosLeaveCalls(s, m, t);
    case OfSystem(m) => SystemStepMoves(c, s, m, t);
  }

  lemma {:induction false} EndedRightStays(s: System, t: System, id: string)
    requires History(s, t) && EndedRight(s, id)
    ensures EndedRight(t, id)
  {
  }

  lemma {:induction false} RunStepEndsRight(c: Config, run: seq<System>, k: nat, id: string)
    requires IsRun(c, run) && k + 1 < |run| && IsOver(run[k + 1], id) && !IsOver(run[k], id)
    ensures EndedRight(run[k + 1], id) || CancelledAt(run, k, id)
  {
    RunKeeps(c, run, k);
    RunSteps(c, run, k);
    StepEndsRight(c, run[k], run[k + 1], id);
  }

  lemma {:induction false} OverEndedRight(c: Config, run: seq<System>, i: nat, id: string)
    requires IsRun(c, run) && i < |run| && IsOver(run[i], id)
    ensures EndedRight(run[i], id) || exists k :: 0 <= k < i && CancelledAt(run, k, id)
  {
    if IsOver(run[i - 1], id) {
      OverEndedRight(c, run, i - 1, id);
      if EndedRight(run[i - 1], id) {
        RunHistory(c, run, i - 1, i);
        EndedRightStays(run[i - 1], run[i], id);
      }
    } else {
      RunStepEndsRight(c, run, i - 1, id);
    }
  }

  /** In every run, a call that is over and was not cancelled has been executed exactly when its
      row is APPROVED or AUTO_ALLOWED, and has been refused exactly when it is DENIED or EXPIRED. */
  lemma {:induction false} EndedAsDecided(c: Config, run: seq<System>, i: nat, id: string)
    requires IsRun(c, run) && i < |run| && IsOver(run[i], id)
    requires forall k :: 0 <= k < i ==> !CancelledAt(run, k, id)
    ensures id in run[i].actions
    ensures Forwarded(id) in run[i].log
       <==> run[i].actions[id].status == APPROVED || run[i].actions[id].status == AUTO_ALLOWED
    ensures Forwarded(id) !in run[i].log
       <==> run[i].actions[id].status == DENIED || run[i].actions[id].status == EXPIRED
  {
    OverEndedRight(c, run, i, id);
    if Forwarded(id) in run[i].log {
      ForwardedOnlyIfCleared(c, run, i, id);
    }
  }

  // ---- Decisions that are left alone ------------------------------------------

  /** Two steps, one after the other. */
  ghost function TakeTwo(c: Config, s: System, a: Step, b: Step): Option<System> {
    match Take(c, s, a)
    case None => None
    case Some(t) => Take(c, t, b)
  }

  lemma {:induction false} RunOnTwo(c: Config, run: seq<System>, a: Step, b: Step, t: System)
      returns (longer: seq<System>)
    requires IsRun(c, run) && TakeTwo(c, Last(run), a, b) == Some(t)
    ensures IsRun(c, longer) && run <= longer && Last(longer) == t
  {
    var mid := Take(c, Last(run), a).value;
    RunOn(c, run, a);
    RunOn(c, run + [mid], b);
    longer := run + [mid] + [t];
  }

  /** What a decision that runs alone leaves: a PENDING row decided as it says, any other row as it
      was, its event out of the map and set, and the row's outcome announced and answered. */
  ghost predicate DecisionDone(s: System, t: System, r: nat, id: string, approved: bool, who: string, now: real) {
    && id in s.actions && id in t.actions && t.actions == s.actions[id := t.actions[id]]
    && SameRequest(s.actions[id], t.actions[id])
    && (s.actions[id].status == PENDING ==>
          t.actions[id].status == (if approved then APPROVED else DENIED)
          && t.actions[id].decidedBy == Some(who) && t.actions[id].resolvedAt == Some(now))
    && (s.actions[id].status != PENDING ==> t.actions[id] == s.actions[id])
    && id !in t.holds.pending && (id in s.holds.pending ==> FlagSet(t.holds, id))
    && t.log == s.log + [ResolvedAnnounced(id, OutcomeOf(t.actions[id])), DecideReturned(id, OutcomeOf(t.actions[id]))]
    && r in t.decisions && t.decisions[r].phase == Answered
    && t.calls == s.calls && t.mode == s.mode && t.journal == s.journal
  }

  /** The arrival of a decision and its first read. */
  lemma {:induction false} DecisionIsRead(s: System, r: nat, id: string, approved: bool, who: string)
      returns (begun: System, t: System)
    requires s.mode.Serving? && r !in s.decisions && id in s.actions
    ensures DoBeginDecide(s, r, id, approved, who) == Some(begun) && DoDecideCheck(begun, r) == Some(t)
    ensures t == s.(decisions := s.decisions[r := Decision(id, approved, who, Updating)])
  {
    begun := DoBeginDecide(s, r, id, approved, who).value;
    t := DoDecideCheck(begun, r).value;
    assert t.decisions == s.decisions[r := Decision(id, approved, who, Updating)];
  }

  /** The UPDATE of a decision and its release. */
  lemma {:induction false} DecisionIsMade(s: System, r: nat, now: real) returns (made: System, t: System)
    requires s.mode.Serving? && r in s.decisions && s.decisions[r].phase == Updating && s.decisions[r].id in s.actions
    requires HoldsOk(s.actions, s.holds)
    ensures DoDecideUpdate(s, r, now) == Some(made) && DoDecideRelease(made, r) == Some(t)
    ensures t == s.(actions := t.actions, holds := t.holds, decisions := t.decisions)
    ensures r in t.decisions && t.decisions[r] == s.decisions[r].(phase := Rereading)
    ensures var d := s.decisions[r]; var id := d.id;
      && id in t.actions && t.actions == s.actions[id := t.actions[id]] && SameRequest(s.actions[id], t.actions[id])
      && (s.actions[id].status == PENDING ==>
            t.actions[id].status == (if d.approved then APPROVED else DENIED)
            && t.actions[id].decidedBy == Some(d.decidedBy) && t.actions[id].resolvedAt == Some(now))
      && (s.actions[id].status != PENDING ==> t.actions[id] == s.actions[id])
      && id !in t.holds.pending && (id in s.holds.pending ==> FlagSet(t.holds, id))
  {
    made := DoDecideUpdate(s, r, now).value;
    t := DoDecideRelease(made, r).value;
  }

  /** The second read of a decision, its announcement and its answer. */
  lemma {:induction false} DecisionIsTold(s: System, r: nat) returns (read: System, told: System, t: System)
    requires s.mode.Serving? && r in s.decisions && s.decisions[r].phase == Rereading && s.decisions[r].id in s.actions
    ensures DoDecideRead(s, r) == Some(read) && DoDecideAnnounce(read, r) == Some(told)
    ensures DoDecideAnswer(told, r) == Some(t)
    ensures t == s.(decisions := t.decisions, log := t.log) && r in t.decisions && t.decisions[r].phase == Answered
    ensures var id := s.decisions[r].id; var o := OutcomeOf(s.actions[id]);
      t.log == s.log + [ResolvedAnnounced(id, o), DecideReturned(id, o)]
  {
    read := DoDecideRead(s, r).value;
    told := DoDecideAnnounce(read, r).value;
    t := DoDecideAnswer(told, r).value;
  }

  lemma {:induction false} DecisionStretches(s: System, r: nat, id: string, approved: bool, who: string, now: real)
      returns (asked: System, released: System, t: System)
    requires s.mode.Serving? && r !in s.decisions && id in s.actions && HoldsOk(s.actions, s.holds)
    ensures var begun := DoBeginDecide(s, r, id, approved, who);
      begun.Some? && DoDecideCheck(begun.value, r) == Some(asked)
    ensures var made := DoDecideUpdate(asked, r, now); made.Some? && DoDecideRelease(made.value, r) == Some(released)
    ensures var read := DoDecideRead(released, r);
      read.Some? && DoDecideAnnounce(read.value, r).Some?
      && DoDecideAnswer(DoDecideAnnounce(read.value, r).value, r) == Some(t)
    ensures DecisionDone(s, t, r, id, approved, who, now)
  {
    var begun, made, read, told;
    begun, asked := DecisionIsRead(s, r, id, approved, who);
    made, released := DecisionIsMade(asked, r, now);
    read, told, t := DecisionIsTold(released, r);
  }

  lemma {:induction false} RunMadeDecision(c: Config, run: seq<System>, r: nat, id: string, approved: bool,
      who: string, now: real, asked: System, released: System) returns (longer: seq<System>)
    requires IsRun(c, run)
    requires var begun := DoBeginDecide(Last(run), r, id, approved, who);
      begun.Some? && DoDecideCheck(begun.value, r) == Some(asked)
    requires var made := DoDecideUpdate(asked, r, now); made.Some? && DoDecideRelease(made.value, r) == Some(released)
    ensures IsRun(c, longer) && run <= longer && Last(longer) == released
  {
    longer := RunOnTwo(c, run, OfDecision(BeginDecide(r, id, approved, who)), OfDecision(DecideCheck(r)), asked);
    longer := RunOnTwo(c, longer, OfDecision(DecideUpdate(r, now)), OfDecision(DecideRelease(r)), released);
  }

  lemma {:induction false} RunToldDecision(c: Config, run: seq<System>, r: nat, t: System) returns (longer: seq<System>)
    requires IsRun(c, run)
    requires var read := DoDecideRead(Last(run), r);
      read.Some? && DoDecideAnnounce(read.value, r).Some?
      && DoDecideAnswer(DoDecideAnnounce(read.value, r).value, r) == Some(t)
    ensures IsRun(c, longer) && run <= longer && Last(longer) == t
  {
    var read := DoDecideRead(Last(run), r).value;
    var told := DoDecideAnnounce(read, r).value;
    longer := RunOnTwo(c, run, OfDecision(DecideRead(r)), OfDecision(DecideAnnounce(r)), told);
    RunOn(c, longer, OfDecision(DecideAnswer(r)));
    longer := longer + [t];
  }

  lemma {:induction false} HoldsOfRun(c: Config, run: seq<System>)
    requires IsRun(c, run)
    ensures HoldsOk(Last(run).actions, Last(run).holds)
  {
    RunKeeps(c, run, |run| - 1);
  }

  /** A decision that is made in any state of any run and runs alone does all of that. */
  lemma {:induction false} DecisionGoesThrough(c: Config, run: seq<System>, r: nat, id: string, approved: bool,
      who: string, now: real) returns (longer: seq<System>)
    requires IsRun(c, run) && Last(run).mode.Serving? && r !in Last(run).decisions && id in Last(run).actions
    ensures IsRun(c, longer) && run <= longer
    ensures DecisionDone(Last(run), Last(longer), r, id, approved, who, now)
  {
    HoldsOfRun(c, run);
    var asked, released, t := DecisionStretches(Last(run), r, id, approved, who, now);
    longer := RunMadeDecision(c, run, r, id, approved, who, now, asked, released);
    longer := RunToldDecision(c, longer, r, t);
  }

  /** From any state of any run in which a live call has a PENDING row: a decision on it, made alone,
      and then the call, left alone, end with the call executed if it was approved, and with the
      call refused if it was denied. */
  lemma {:induction false} DecisionIsCarriedOut(c: Config, run: seq<System>, r: nat, id: string, approved: bool,
      who: string, now: real) returns (longer: seq<System>)
    requires IsRun(c, run) && Alive(Last(run), id) && r !in Last(run).decisions
    requires id in Last(run).actions && Last(run).actions[id].status == PENDING
    ensures IsRun(c, longer) && run <= longer
    ensures EndsWith(Last(longer), id, if approved then APPROVED else DENIED)
    ensures Last(longer).actions[id].decidedBy == Some(who)
  {
    var decided := DecisionGoesThrough(c, run, r, id, approved, who, now);
    longer := LeftAloneEnds(c, decided, id, now);
    OutcomeIsFinal(c, longer, |decided| - 1, |longer| - 1, id);
  }

  lemma {:induction false} HeldRequestWaits(c: Config, q: Request, id: string) returns (run: seq<System>)
    requires q.risk.riskLevel in c.heldRiskLevels && q.risk.ruleId != UNDO_RULE
    ensures IsRun(c, run) && CallAt(Last(run), id, Waiting) && Last(run).decisions == map[]
    ensures Last(run).actions == map[id := NewAction(q, id, true, 0.0)]
  {
    run := FirstServing(c);
    run := SubmittedEarly(c, run, q, id);
    RegistersLate(c, Last(run), id);
    var registered := DoRegisterEvent(c, Last(run), id).value;
    var announced := DoAnnouncePending(registered, id).value;
    run := RunOnTwo(c, run, OfCall(RegisterEvent(id)), OfCall(AnnouncePending(id)), announced);
    RunOn(c, run, OfCall(EnterWait(id)));
    run := run + [DoEnterWait(announced, id).value];
  }

  /** For every request of a held level there is a run that blocks on its event, takes an answer,
      and ends with the call executed if the answer was to approve it and refused if it was not. */
  lemma {:induction false} HeldRequestIsCarriedOut(c: Config, q: Request, id: string, approved: bool, who: string,
      now: real) returns (run: seq<System>)
    requires q.risk.riskLevel in c.heldRiskLevels && q.risk.ruleId != UNDO_RULE
    ensures IsRun(c, run) && Terminal(Last(run).actions, id) && Last(run).actions[id].decidedBy == Some(who)
    ensures Forwarded(id) in Last(run).log <==> approved
    ensures Last(run).actions[id].status == if approved then APPROVED else DENIED
  {
    run := HeldRequestWaits(c, q, id);
    run := DecisionIsCarriedOut(c, run, 0, id, approved, who, now);
  }
}
