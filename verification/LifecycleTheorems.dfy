/** Safety of the action lifecycle over whole runs. */
module LifecycleTheorems {
  import opened Records
  import opened Tables
  import opened Holds
  import opened Compensation
  import opened Lifecycle
  import opened LifecycleInvariant

  // ---- Runs -------------------------------------------------------------------

  lemma {:induction false} InitKeeps(c: Config)
    ensures Inv(c, INIT)
  {
  }

  lemma {:induction false} RunSteps(c: Config, run: seq<System>, i: nat)
    requires IsRun(c, run) && i + 1 < |run|
    ensures Next(c, run[i], run[i + 1])
  {
    assert StepsAt(c, run, i);
  }

  lemma {:induction false} NextKeeps(c: Config, s: System, t: System)
    requires Inv(c, s) && Next(c, s, t)
    ensures Inv(c, t)
  {
    var step :| Take(c, s, step) == Some(t);
    StepKeeps(c, s, step, t);
  }

  lemma {:induction false} RunStepKeeps(c: Config, run: seq<System>, i: nat)
    requires IsRun(c, run) && i + 1 < |run| && Inv(c, run[i])
    ensures Inv(c, run[i + 1])
  {
    RunSteps(c, run, i);
    NextKeeps(c, run[i], run[i + 1]);
  }

  lemma {:induction false} RunKeeps(c: Config, run: seq<System>, i: nat)
    requires IsRun(c, run) && i < |run|
    ensures Inv(c, run[i])
  {
    if i == 0 {
      InitKeeps(c);
    } else {
      RunKeeps(c, run, i - 1);
      RunStepKeeps(c, run, i - 1);
    }
  }

  lemma {:induction false} RunOn(c: Config, run: seq<System>, step: Step)
    requires IsRun(c, run) && Take(c, run[|run| - 1], step).Some?
    ensures IsRun(c, run + [Take(c, run[|run| - 1], step).value])
  {
    var next := run + [Take(c, run[|run| - 1], step).value];
    forall i | 0 <= i < |next| - 1 ensures StepsAt(c, next, i) {
      if i < |run| - 1 {
        assert StepsAt(c, run, i);
        assert next[i] == run[i] && next[i + 1] == run[i + 1];
      } else {
        assert Take(c, next[i], step) == Some(next[i + 1]);
      }
    }
  }

  /** The state in which nothing has happened yet but the start. */
  lemma {:induction false} FirstServing(c: Config) returns (run: seq<System>)
    ensures IsRun(c, run) && run[|run| - 1] == INIT.(mode := Serving)
  {
    run := [INIT];
    assert Lists([], INIT.actions, Some(PENDING));
    RunOn(c, run, OfSystem(Restart([], 0.0)));
    run := run + [DoRestart(INIT, [], 0.0).value];
    assert run[|run| - 1].mode.todo == [];
    RunOn(c, run, OfSystem(Serve));
    run := run + [DoServe(run[|run| - 1]).value];
  }

  ghost predicate SameTables(s: System, t: System) {
    t.actions == s.actions && t.journal == s.journal && s.log <= t.log
  }

  lemma {:induction false} SameTablesHistory(s: System, t: System)
    requires SameTables(s, t)
    ensures History(s, t)
  {
  }

  lemma {:induction false} MoveHistory(s: System, t: System)
    requires Evolves(s.actions, t.actions) && t.journal == s.journal && LogGrows(s, t)
    ensures History(s, t)
  {
  }

  lemma {:induction false} CaptureHistory(s: System, id: string, kind: string, payload: Payload, now: real, t: System)
    requires DoCaptureImage(s, id, kind, payload, now) == Some(t)
    ensures History(s, t)
  {
    JournalStatementsEvolve(s.journal, id, kind, payload, "", now);
  }

  lemma {:induction false} CallHistory(c: Config, s: System, step: CallStep, t: System)
    requires GateOk(c, s) && TakeCall(c, s, step) == Some(t)
    ensures History(s, t)
  {
    if step.BeginCall? {
      SameTablesHistory(s, t);
    } else if step.CaptureImage? {
      CaptureHistory(s, step.id, step.kind, step.payload, step.now, t);
    } else {
      StepHasContext(c, s, step);
      if Early(step) { EarlyStepMoves(c, s, step, t); } else { LateStepMoves(c, s, step, t); }
      MoveHistory(s, t);
    }
  }

  lemma {:induction false} MarkHistory(s: System, t: System, u: nat, now: real)
    requires Marks(s, t, u, now)
    ensures History(s, t)
  {
    JournalStatementsEvolve(s.journal, s.undos[u].id, "", FilePayload("", None), s.undos[u].phase.undoId, now);
  }

  lemma {:induction false} UndoStepTables(s: System, step: UndoStep, t: System)
    requires TakeUndo(s, step) == Some(t) && !step.UndoMark? && !step.UndoRecord?
    ensures SameTables(s, t)
  {
    UndoStepFrame(s, step, t);
  }

  lemma {:induction false} UndoHistory(c: Config, s: System, step: UndoStep, t: System)
    requires GateOk(c, s) && RecordsOk(s) && TakeUndo(s, step) == Some(t)
    ensures History(s, t)
  {
    if step.UndoMark? {
      MarkingMarks(s, t, step.u, step.now);
      if Undoes(s.journal, s.undos[step.u].id) { MarkHistory(s, t, step.u, step.now); } else { MoveHistory(s, t); }
    } else if step.UndoRecord? {
      RecordingRecords(c, s, t, step.u, step.now);
      MoveHistory(s, t);
    } else {
      UndoStepTables(s, step, t);
      SameTablesHistory(s, t);
    }
  }

  lemma {:induction false} StepHistory(c: Config, s: System, step: Step, t: System)
    requires GateOk(c, s) && RecordsOk(s) && Take(c, s, step) == Some(t)
    ensures History(s, t)
  {
    match step
    case OfCall(m) => CallHistory(c, s, m, t);
    case OfDecision(m) =>
      DecisionStepMoves(c, s, m, t);
      MoveHistory(s, t);
    case OfUndo(m) => UndoHistory(c, s, m, t);
    case OfSystem(m) =>
      SystemStepMoves(c, s, m, t);
      MoveHistory(s, t);
  }

  lemma {:induction false} NextHistory(c: Config, s: System, t: System)
    requires Inv(c, s) && Next(c, s, t)
    ensures History(s, t)
  {
    var step :| Take(c, s, step) == Some(t);
    StepHistory(c, s, step, t);
  }

  lemma {:induction false} RunStepHistory(c: Config, run: seq<System>, i: nat)
    requires IsRun(c, run) && i + 1 < |run|
    ensures History(run[i], run[i + 1])
  {
    RunKeeps(c, run, i);
    RunSteps(c, run, i);
    NextHistory(c, run[i], run[i + 1]);
  }

  lemma {:induction false} HistoryTransitive(s: System, t: System, u: System)
    requires History(s, t) && History(t, u)
    ensures History(s, u)
  {
    EvolvesTransitive(s.actions, t.actions, u.actions);
    JournalEvolvesTransitive(s.journal, t.journal, u.journal);
  }

  lemma {:induction false} RunHistory(c: Config, run: seq<System>, i: nat, j: nat)
    requires IsRun(c, run) && i <= j < |run|
    ensures History(run[i], run[j])
    decreases j - i
  {
    if i < j {
      RunHistory(c, run, i, j - 1);
      RunStepHistory(c, run, j - 1);
      HistoryTransitive(run[i], run[j - 1], run[j]);
    }
  }

  // ---- The gate ---------------------------------------------------------------

  /** What the stored row of a forwarded action says. */
  ghost predicate RowCleared(c: Config, row: Action) {
    if row.riskLevel in c.heldRiskLevels then row.status == APPROVED && row.decidedBy.Some?
    else row.status == AUTO_ALLOWED
  }

  /** In every run, at every moment after a forward, the forwarded action's row is approved
      by a named decider if its level is held and auto-allowed otherwise; so a PENDING,
      DENIED or EXPIRED row is never forwarded, and no action is forwarded twice. */
  lemma {:induction false} ForwardedOnlyIfCleared(c: Config, run: seq<System>, i: nat, id: string)
    requires IsRun(c, run) && i < |run| && Forwarded(id) in run[i].log
    ensures id in run[i].actions && RowCleared(c, run[i].actions[id])
    ensures forall m, n :: 0 <= m < n < |run[i].log| && run[i].log[m] == Forwarded(id) ==>
      run[i].log[n] != Forwarded(id)
  {
    RunKeeps(c, run, i);
    var m :| 0 <= m < |run[i].log| && run[i].log[m] == Forwarded(id);
    assert EventOk(run[i].actions, run[i].journal, run[i].log[m]);
    assert RowOk(c, id, run[i].actions[id]);
  }

  /** Already at the moment of the forward the row is cleared and has left the map of pending events. */
  lemma {:induction false} ForwardStepIsCleared(c: Config, run: seq<System>, i: nat, id: string)
    requires IsRun(c, run) && i < |run| && DoForward(run[i], id).Some?
    ensures id in run[i].actions && RowCleared(c, run[i].actions[id]) && id !in run[i].holds.pending
    ensures Forwarded(id) !in run[i].log
  {
    RunKeeps(c, run, i);
    assert CallOk(c, run[i].actions, run[i].holds, id, run[i].calls[id]);
    assert RowOk(c, id, run[i].actions[id]);
  }

  // ---- Outcomes ---------------------------------------------------------------

  /** Once a row has left PENDING, its status, decider and resolution time never change. */
  lemma {:induction false} OutcomeIsFinal(c: Config, run: seq<System>, i: nat, j: nat, id: string)
    requires IsRun(c, run) && i <= j < |run| && Terminal(run[i].actions, id)
    ensures id in run[j].actions && OutcomeOf(run[j].actions[id]) == OutcomeOf(run[i].actions[id])
    ensures SameRequest(run[i].actions[id], run[j].actions[id])
  {
    RunHistory(c, run, i, j);
  }

  /** The outcome an event carries, if it carries one for this action. */
  function Told(e: LogEvent, id: string): Option<Outcome> {
    match e
    case ResolvedAnnounced(x, o) => if x == id then Some(o) else None
    case DecideReturned(x, o) => if x == id then Some(o) else None
    case WaitReturned(x, o) => if x == id then Some(o) else None
    case _ => None
  }

  /** Every `action.resolved` event, every answer of `decide` and the waiter's result for one
      action carry one triple, that of the row, whoever won the race and however late they came. */
  lemma {:induction false} EveryoneIsToldTheSame(c: Config, run: seq<System>, i: nat, e: LogEvent, id: string)
    requires IsRun(c, run) && i < |run| && e in run[i].log && Told(e, id).Some?
    ensures Terminal(run[i].actions, id) && Told(e, id) == Some(OutcomeOf(run[i].actions[id]))
    ensures forall f :: f in run[i].log && Told(f, id).Some? ==> Told(f, id) == Told(e, id)
  {
    RunKeeps(c, run, i);
    forall f | f in run[i].log && Told(f, id).Some?
      ensures Terminal(run[i].actions, id) && Told(f, id) == Some(OutcomeOf(run[i].actions[id]))
    {
      var m :| 0 <= m < |run[i].log| && run[i].log[m] == f;
      assert EventOk(run[i].actions, run[i].journal, run[i].log[m]);
    }
  }

  // ---- The hold map -----------------------------------------------------------

  /** The call has registered its event and its waiter has not left yet. */
  predicate Held(phase: Phase) {
    phase == AnnouncingPending || phase == Submitted || phase == Waiting || phase == TimedOut
  }

  /** The wait is over and the gateway goes on with what it returned. */
  predicate Past(phase: Phase) {
    phase.Reading? || phase == AnnouncingExpiry || phase == Returning || phase == Cleared || phase == Armed
  }

  /** The events of an id: a set one means a decided row and has left the map, and one in the
      map is an unset one of a stored row. */
  ghost predicate EventSound(s: System, id: string) {
    && (id in s.holds.flags && s.holds.flags[id] ==> Terminal(s.actions, id) && id !in s.holds.pending)
    && (id in s.holds.pending ==> id in s.actions && id in s.holds.flags && !s.holds.flags[id])
  }

  /** The waiter of an id: while it is alive a PENDING row has an unset event in the map; past
      its wait the row is decided and the map knows it no more; and what it returns is the
      outcome of the stored row. */
  ghost predicate WaiterSound(s: System, id: string) {
    id in s.calls ==>
      && (Held(s.calls[id].phase) && id in s.actions && s.actions[id].status == PENDING ==>
            id in s.holds.pending && id in s.holds.flags && !s.holds.flags[id])
      && (Past(s.calls[id].phase) ==> Terminal(s.actions, id) && id !in s.holds.pending)
      && (s.calls[id].phase == Returning ==>
            id in s.actions && s.calls[id].local.status != PENDING
              && OutcomeOf(s.calls[id].local) == OutcomeOf(s.actions[id]))
  }

  lemma {:induction false} EventIsSound(c: Config, s: System, id: string)
    requires HoldsOk(s.actions, s.holds)
    ensures EventSound(s, id)
  {
  }

  lemma {:induction false} WaiterIsSound(c: Config, s: System, id: string)
    requires id in s.calls ==> CallOk(c, s.actions, s.holds, id, s.calls[id])
    requires id in s.actions ==> RowOk(c, id, s.actions[id])
    ensures WaiterSound(s, id)
  {
  }

  lemma {:induction false} GateIsSound(c: Config, s: System, id: string)
    requires GateOk(c, s)
    ensures EventSound(s, id) && WaiterSound(s, id)
  {
    EventIsSound(c, s, id);
    WaiterIsSound(c, s, id);
  }

  /** In every state of every run, events and waiters are sound, even if the decision came
      before the event existed. */
  lemma {:induction false} HoldMapIsSound(c: Config, run: seq<System>, i: nat, id: string)
    requires IsRun(c, run) && i < |run|
    ensures EventSound(run[i], id) && WaiterSound(run[i], id)
  {
    RunKeeps(c, run, i);
    GateIsSound(c, run[i], id);
  }

  // ---- Restart ----------------------------------------------------------------

  /** Rows are as they were, or were PENDING and have expired. */
  ghost predicate SweptSoFar(before: ActionTable, now: ActionTable, at: real) {
    before.Keys == now.Keys && forall id :: id in before ==>
      now[id] == before[id] || (before[id].status == PENDING && now[id] ==
        before[id].(status := EXPIRED, decidedBy := None, resolvedAt := Some(at)))
  }

  ghost predicate NonePending(t: ActionTable) {
    forall id :: id in t ==> t[id].status != PENDING
  }

  /** A step of the sweep that began at `at`. */
  ghost predicate Sweeps(before: ActionTable, t: System, at: real) {
    && SweptSoFar(before, t.actions, at)
    && (t.mode.Recovering? ==> t.mode.at == at)
    && (t.mode.Serving? ==> NonePending(t.actions))
  }

  lemma {:induction false} OnlySystemSteps(c: Config, s: System, step: Step)
    requires !s.mode.Serving? && Take(c, s, step).Some?
    ensures step.OfSystem?
  {
  }

  lemma {:induction false} SweepRow(s: System, t: System, before: ActionTable)
    requires DoRecoverRow(s) == Some(t) && SweptSoFar(before, s.actions, s.mode.at)
    ensures Sweeps(before, t, s.mode.at)
  {
    assert t.actions == ResolveAction(s.actions, s.mode.todo[0], Expired(s.mode.at));
  }

  lemma {:induction false} SweepEnds(c: Config, s: System, t: System, before: ActionTable)
    requires GateOk(c, s) && DoServe(s) == Some(t) && SweptSoFar(before, s.actions, s.mode.at)
    ensures Sweeps(before, t, s.mode.at)
  {
    ServeMoves(c, s, t);
  }

  lemma {:induction false} SweepStep(c: Config, s: System, step: SystemStep, t: System, before: ActionTable)
    requires GateOk(c, s) && TakeSystem(s, step) == Some(t) && s.mode.Recovering? && !t.mode.Down?
    requires SweptSoFar(before, s.actions, s.mode.at)
    ensures Sweeps(before, t, s.mode.at)
  {
    match step
    case RecoverRow => SweepRow(s, t, before);
    case Serve => SweepEnds(c, s, t, before);
    case _ =>
  }

  lemma {:induction false} SweepNext(c: Config, s: System, t: System, before: ActionTable)
    requires GateOk(c, s) && Next(c, s, t) && s.mode.Recovering? && !t.mode.Down?
    requires SweptSoFar(before, s.actions, s.mode.at)
    ensures Sweeps(before, t, s.mode.at)
  {
    var step :| Take(c, s, step) == Some(t);
    OnlySystemSteps(c, s, step);
    SweepStep(c, s, step.system, t, before);
  }

  lemma {:induction false} RunStepSweeps(c: Config, run: seq<System>, j: nat, before: ActionTable)
    requires IsRun(c, run) && j + 1 < |run| && run[j].mode.Recovering? && !run[j + 1].mode.Down?
    requires SweptSoFar(before, run[j].actions, run[j].mode.at)
    ensures Sweeps(before, run[j + 1], run[j].mode.at)
  {
    RunKeeps(c, run, j);
    RunSteps(c, run, j);
    SweepNext(c, run[j], run[j + 1], before);
  }

  /** From a restart until something is served, rows only expire at the restart's time, and
      serving begins with no PENDING row. */
  lemma {:induction false} RestartSweeps(c: Config, run: seq<System>, i: nat, j: nat)
    requires IsRun(c, run) && i < j < |run|
    requires (forall k :: i <= k < j ==> run[k].mode.Recovering?) && !run[j].mode.Down?
    ensures Sweeps(run[i].actions, run[j], run[i].mode.at)
    decreases j
  {
    if i < j - 1 {
      RestartSweeps(c, run, i, j - 1);
    }
    RunStepSweeps(c, run, j - 1, run[i].actions);
  }

  /** Once the sweep is over, exactly the PENDING rows have expired, with no decider and at
      one time, and no other row has changed. */
  lemma {:induction false} RestartExpiresExactlyThePending(c: Config, run: seq<System>, i: nat, j: nat)
    requires IsRun(c, run) && i < j < |run|
    requires (forall k :: i <= k < j ==> run[k].mode.Recovering?) && run[j].mode.Serving?
    ensures run[j].actions == map id | id in run[i].actions ::
      if run[i].actions[id].status == PENDING
      then run[i].actions[id].(status := EXPIRED, decidedBy := None, resolvedAt := Some(run[i].mode.at))
      else run[i].actions[id]
  {
    RestartSweeps(c, run, i, j);
  }

  // ---- Journal and undo -------------------------------------------------------

  /** Each journal entry belongs to a compensable row with the status APPROVED or AUTO_ALLOWED,
      has one of the three known kinds, and keeps its first payload, so the compensation builder
      never raises. */
  lemma {:induction false} JournalIsSound(c: Config, run: seq<System>, i: nat, j: nat, id: string)
    requires IsRun(c, run) && i <= j < |run| && id in run[i].journal
    ensures id in run[i].actions && Executable(run[i].actions[id].status)
      && run[i].actions[id].reversibility == COMPENSABLE
    ensures BuildCompensation(run[i].journal[id].kind, run[i].journal[id].payload).Ok?
    ensures id in run[j].journal && run[j].journal[id].kind == run[i].journal[id].kind
         && run[j].journal[id].payload == run[i].journal[id].payload
  {
    RunKeeps(c, run, i);
    RunHistory(c, run, i, j);
    assert EntryOk(run[i].actions, run[i].log, run[i].issued, id, run[i].journal[id]);
  }

  lemma {:induction false} BuildNeverRaises(c: Config, run: seq<System>, i: nat, id: string)
    requires IsRun(c, run) && i < |run|
    ensures BuildRaised(id) !in run[i].log
  {
    RunKeeps(c, run, i);
  }

  lemma {:induction false} CompensatedByOne(s: System, id: string, undoId: string, call: ToolCall)
    requires RecordsOk(s) && Compensated(id, undoId, call) in s.log
    ensures UndoneBy(s.journal, id, undoId)
    ensures CallsFor(s.log, id) <= PlanOf(s.journal[id].kind, s.journal[id].payload)
    ensures forall e :: e in s.log && e.Compensated? && e.id == id ==> e.undoId == undoId
  {
    forall e | e in s.log && e.Compensated? && e.id == id ensures UndoneBy(s.journal, id, e.undoId) {
      var m :| 0 <= m < |s.log| && s.log[m] == e;
      assert EventOk(s.actions, s.journal, s.log[m]);
    }
    assert EntryOk(s.actions, s.log, s.issued, id, s.journal[id]);
  }

  /** However many undo requests race, every compensating call made for an action belongs
      to the one request whose undo id its journal entry carries, and together the calls
      are a prefix of the plan built from the first pre-image: nothing is run twice. */
  lemma {:induction false} UndoneAtMostOnce(c: Config, run: seq<System>, i: nat, id: string, undoId: string,
      call: ToolCall)
    requires IsRun(c, run) && i < |run| && Compensated(id, undoId, call) in run[i].log
    ensures UndoneBy(run[i].journal, id, undoId)
    ensures CallsFor(run[i].log, id) <= PlanOf(run[i].journal[id].kind, run[i].journal[id].payload)
    ensures forall e :: e in run[i].log && e.Compensated? && e.id == id ==> e.undoId == undoId
  {
    RunKeeps(c, run, i);
    CompensatedByOne(run[i], id, undoId, call);
  }

  /** Every compensation row is the undo of exactly one journal entry. */
  lemma {:induction false} UndoRowHasOneEntry(c: Config, run: seq<System>, i: nat, row: string)
    requires IsRun(c, run) && i < |run| && row in run[i].actions && run[i].actions[row].ruleId == UNDO_RULE
    ensures exists entry ::
      UndoneBy(run[i].journal, entry, row) && forall other :: UndoneBy(run[i].journal, other, row) ==> other == entry
  {
    RunKeeps(c, run, i);
    var entry :| UndoneBy(run[i].journal, entry, row);
    assert forall other :: UndoneBy(run[i].journal, other, row) ==> other == entry;
  }

  /** The `undoable` flag of the listing. */
  predicate Undoable(t: ActionTable, j: JournalTable, id: string) {
    id in t && Undoes(j, id) && (t[id].status == APPROVED || t[id].status == AUTO_ALLOWED)
  }

  /** An undo request made and run alone in a reachable state. */
  function UndoAlone(s: System, u: nat, id: string, who: string, undoId: string, now: real): Option<System> {
    match DoBeginUndo(s, u, id, who)
    case None => None
    case Some(s1) =>
      match DoUndoRead(s1, u)
      case None => None
      case Some(s2) =>
        match DoUndoFetch(s2, u, undoId)
        case None => None
        case Some(s3) => DoUndoMark(s3, u, now)
  }

  /** The undo request holds the journal entry and is about to make the whole plan. */
  ghost predicate SetsOut(s: System, end: Option<System>, u: nat, id: string, undoId: string) {
    && end.Some? && id in s.journal && UndoneBy(end.value.journal, id, undoId)
    && u in end.value.undos && end.value.undos[u].phase.Compensating?
    && end.value.undos[u].phase.rest == PlanOf(s.journal[id].kind, s.journal[id].payload)
  }

  lemma {:induction false} GuardsPass(s: System, u: nat, id: string, who: string, undoId: string, now: real)
    requires s.mode.Serving? && u !in s.undos && undoId !in s.issued
    requires Undoable(s.actions, s.journal, id) && WellKinded(s.journal[id].kind, s.journal[id].payload)
    ensures SetsOut(s, UndoAlone(s, u, id, who, undoId, now), u, id, undoId)
  {
    var s1 := DoBeginUndo(s, u, id, who).value;
    var s2 := DoUndoRead(s1, u).value;
    var s3 := DoUndoFetch(s2, u, undoId).value;
    assert s3.undos[u] == Undo(id, who, Marking(s.actions[id], s.journal[id], undoId));
  }

  lemma {:induction false} GuardsStop(s: System, u: nat, id: string, who: string, undoId: string, now: real)
    requires s.mode.Serving? && u !in s.undos && undoId !in s.issued
    requires !Undoable(s.actions, s.journal, id)
    ensures UndoAlone(s, u, id, who, undoId, now).None?
  {
    var s1 := DoBeginUndo(s, u, id, who).value;
    var s2 := DoUndoRead(s1, u).value;
    if id in s.actions && Executable(s.actions[id].status) {
      var s3 := DoUndoFetch(s2, u, undoId).value;
      assert s3.undos[u].phase == Closed;
    } else {
      assert s2.undos[u].phase == Closed;
    }
  }

  lemma {:induction false} FlagTells(s: System, u: nat, id: string, who: string, undoId: string, now: real)
    requires RecordsOk(s) && s.mode.Serving? && u !in s.undos && undoId !in s.issued
    ensures Undoable(s.actions, s.journal, id) <==> SetsOut(s, UndoAlone(s, u, id, who, undoId, now), u, id, undoId)
  {
    if Undoable(s.actions, s.journal, id) {
      assert EntryOk(s.actions, s.log, s.issued, id, s.journal[id]);
      GuardsPass(s, u, id, who, undoId, now);
    } else {
      GuardsStop(s, u, id, who, undoId, now);
    }
  }

  /** The listing's flag is true exactly when an undo request made now would pass every
      guard, win its journal entry and set out on the whole plan. */
  lemma {:induction false} UndoableMeansUndoStarts(c: Config, run: seq<System>, i: nat, u: nat, id: string,
      who: string, undoId: string, now: real)
    requires IsRun(c, run) && i < |run|
    requires run[i].mode.Serving? && u !in run[i].undos && undoId !in run[i].issued
    ensures Undoable(run[i].actions, run[i].journal, id)
       <==> SetsOut(run[i], UndoAlone(run[i], u, id, who, undoId, now), u, id, undoId)
  {
    RunKeeps(c, run, i);
    FlagTells(run[i], u, id, who, undoId, now);
  }
}
