/** The action lifecycle as a protocol: gateway calls, decisions, undo requests and the
    startup sweep, interleaved at every await over one store. Each SQL statement is one
    atomic step, and a crash may fall between any two steps. */
module Lifecycle {
  import opened Records
  import opened Tables
  import opened Holds
  import opened Compensation
  import opened Literals

  datatype Config = Config(heldRiskLevels: set<RiskLevel>)

  const UNDO_RULE := "UNDO-COMPENSATION"

  // ---- Coroutines -------------------------------------------------------------

  /** Where a gateway call is: `submit`, `wait_for_decision`, then journal and execute. */
  datatype Phase =
    | Inserting                  // row built, INSERT not yet run
    | Inserted                   // row committed, no event yet
    | AnnouncingPending          // event registered
    | Submitted                  // `submit` has returned
    | Looking                    // no event to wait for: about to read the row
    | Waiting                    // blocked on the event
    | TimedOut                   // the hold timeout fired: about to run the expiry UPDATE
    | Leaving                    // expiry UPDATE done, event not yet popped
    | Reading(expired: bool)     // event popped: about to read the row back
    | AnnouncingExpiry
    | Returning                  // `wait_for_decision` is about to return
    | Cleared                    // the gate is open: journal, if compensable
    | Armed                      // journaling is over: execute
    | Finished

  datatype Call = Call(phase: Phase, local: Action, risk: RiskDecision)

  datatype Decision = Decision(id: string, approved: bool, decidedBy: string, phase: DecisionPhase)

  datatype DecisionPhase =
    | Checking
    | Updating
    | Releasing
    | Rereading
    | Announcing(row: Action)
    | Answering(row: Action)
    | Answered

  datatype Undo = Undo(id: string, decidedBy: string, phase: UndoPhase)

  datatype UndoPhase =
    | Fetching
    | FetchingJournal(row: Action)
    | Marking(row: Action, entry: JournalEntry, undoId: string)
    | Compensating(row: Action, undoId: string, total: nat, rest: seq<ToolCall>)
    | AnnouncingUndo(undoId: string)
    | Closed

  /** Startup sweeps the PENDING rows before anything is served. */
  datatype Mode = Down | Recovering(todo: seq<string>, updated: bool, at: real) | Serving

  datatype LogEvent =
    | PendingAnnounced(id: string)
    | ResolvedAnnounced(id: string, outcome: Outcome)
    | DecideReturned(id: string, outcome: Outcome)
    | WaitReturned(id: string, outcome: Outcome)
    | Forwarded(id: string)
    | Compensated(id: string, undoId: string, call: ToolCall)
    | UndoneAnnounced(undoId: string)
    | BuildRaised(id: string)

  /** `issued` holds every uuid drawn so far, `log` every call forwarded and every event
      published, and `missed` the ids whose waiter may be left with nobody to wake it. */
  datatype System = System(
    actions: ActionTable,
    journal: JournalTable,
    holds: HoldMap,
    mode: Mode,
    calls: map<string, Call>,
    decisions: map<nat, Decision>,
    undos: map<nat, Undo>,
    issued: set<string>,
    log: seq<LogEvent>,
    missed: set<string>)

  const INIT := System(map[], map[], NO_HOLDS, Down, map[], map[], map[], {}, [], {})

  /** Steps of a gateway call. */
  datatype CallStep =
    | BeginCall(id: string, request: Request, now: real)
    | InsertRow(id: string)
    | RegisterEvent(id: string)
    | AnnouncePending(id: string)
    | EnterWait(id: string)
    | LookUp(id: string)
    | Wake(id: string)
    | TimeOut(id: string)
    | Expire(id: string, now: real)
    | LeaveWait(id: string)
    | ReadBack(id: string)
    | AnnounceExpiry(id: string)
    | ReturnDecision(id: string)
    | CaptureNothing(id: string)
    | CaptureImage(id: string, kind: string, payload: Payload, now: real)
    | Forward(id: string)
    | CancelCall(id: string)

  /** Steps of an approve or deny request. */
  datatype DecisionStep =
    | BeginDecide(r: nat, id: string, approved: bool, decidedBy: string)
    | DecideCheck(r: nat)
    | DecideUpdate(r: nat, now: real)
    | DecideRelease(r: nat)
    | DecideRead(r: nat)
    | DecideAnnounce(r: nat)
    | DecideAnswer(r: nat)
    | CancelDecide(r: nat)

  /** Steps of an undo request. */
  datatype UndoStep =
    | BeginUndo(u: nat, id: string, decidedBy: string)
    | UndoRead(u: nat)
    | UndoFetch(u: nat, undoId: string)
    | UndoMark(u: nat, now: real)
    | UndoCall(u: nat, ok: bool)
    | UndoRecord(u: nat, now: real)
    | UndoAnnounce(u: nat)
    | CancelUndo(u: nat)

  /** Steps of the process itself, and the creep detector's flag. */
  datatype SystemStep =
    | FlagNovel(id: string)
    | Crash
    | Restart(todo: seq<Action>, now: real)
    | RecoverRow
    | RecoverAnnounce
    | Serve

  datatype Step =
    | OfCall(call: CallStep)
    | OfDecision(decision: DecisionStep)
    | OfUndo(undo: UndoStep)
    | OfSystem(system: SystemStep)

  predicate TouchesNoTable(step: CallStep) {
    !step.InsertRow? && !step.Expire? && !step.CaptureImage?
  }

  /** The steps up to the wait. */
  predicate Early(step: CallStep) {
    step.BeginCall? || step.RegisterEvent? || step.AnnouncePending? || step.EnterWait? || step.LookUp?
      || step.Wake? || step.TimeOut?
  }

  // ---- Gateway calls ----------------------------------------------------------

  predicate CallAt(s: System, id: string, phase: Phase) {
    s.mode.Serving? && id in s.calls && s.calls[id].phase == phase
  }

  function Goto(s: System, id: string, phase: Phase): System
    requires id in s.calls
  {
    s.(calls := s.calls[id := s.calls[id].(phase := phase)])
  }

  /** The call goes on with the row it has just read, or raises on a missing one. */
  function GotoWithRow(s: System, id: string, phase: Phase): System
    requires id in s.calls
  {
    if id in s.actions then s.(calls := s.calls[id := s.calls[id].(phase := phase, local := s.actions[id])])
    else Goto(s, id, Finished)
  }

  /** Past the gate: a fresh uuid is drawn and the row is built. */
  function DoBeginCall(c: Config, s: System, id: string, r: Request, now: real): Option<System> {
    if s.mode.Serving? && id !in s.issued && r.risk.ruleId != UNDO_RULE then
      var local := NewAction(r, id, r.risk.riskLevel in c.heldRiskLevels, now);
      Some(s.(calls := s.calls[id := Call(Inserting, local, r.risk)], issued := s.issued + {id}))
    else None
  }

  function DoInsertRow(s: System, id: string): Option<System> {
    if CallAt(s, id, Inserting) then
      match InsertAction(s.actions, s.calls[id].local)
      case None => Some(Goto(s, id, Finished))
      case Some(t) => Some(Goto(s, id, Inserted).(actions := t))
    else None
  }

  function DoRegisterEvent(c: Config, s: System, id: string): Option<System> {
    if CallAt(s, id, Inserted) then
      if s.calls[id].risk.riskLevel in c.heldRiskLevels then
        var late := id in s.actions && s.actions[id].status != PENDING;
        Some(Goto(s, id, AnnouncingPending).(holds := Register(s.holds, id),
          missed := s.missed + if late then {id} else {}))
      else Some(Goto(s, id, Submitted))
    else None
  }

  function DoAnnouncePending(s: System, id: string): Option<System> {
    if CallAt(s, id, AnnouncingPending) then Some(Goto(s, id,
      Submitted).(log := s.log + [PendingAnnounced(id)])) else None
  }

  /** The gateway looks at the copy `submit` returned, which is PENDING for a held call. */
  function DoEnterWait(s: System, id: string): Option<System> {
    if CallAt(s, id, Submitted) then
      if s.calls[id].local.status != PENDING then Some(Goto(s, id, Cleared))
      else Some(Goto(s, id, if id in s.holds.pending then Waiting else Looking))
    else None
  }

  function DoLookUp(s: System, id: string): Option<System> {
    if CallAt(s, id, Looking) then Some(GotoWithRow(s, id, Returning)) else None
  }

  function DoWake(s: System, id: string): Option<System> {
    if CallAt(s, id, Waiting) && id in s.holds.flags && s.holds.flags[id]
    then Some(Goto(s, id, Reading(false)).(holds := Forget(s.holds, id)))
    else None
  }

  function DoTimeOut(s: System, id: string): Option<System> {
    if CallAt(s, id, Waiting) then Some(Goto(s, id, TimedOut)) else None
  }

  function DoExpire(s: System, id: string, now: real): Option<System> {
    if CallAt(s, id, TimedOut)
    then Some(Goto(s, id, Leaving).(actions := ResolveAction(s.actions, id, Expired(now))))
    else None
  }

  function DoLeaveWait(s: System, id: string): Option<System> {
    if CallAt(s, id, Leaving) then Some(Goto(s, id, Reading(true)).(holds := Forget(s.holds, id))) else None
  }

  function DoReadBack(s: System, id: string): Option<System> {
    if CallAt(s, id, Reading(false)) then Some(GotoWithRow(s, id, Returning))
    else if CallAt(s, id, Reading(true)) then Some(GotoWithRow(s, id, AnnouncingExpiry))
    else None
  }

  /** Announced even when the expiry UPDATE lost: the row read back says what it says. */
  function DoAnnounceExpiry(s: System, id: string): Option<System> {
    if CallAt(s, id, AnnouncingExpiry)
    then Some(Goto(s, id, Returning).(log := s.log + [ResolvedAnnounced(id, OutcomeOf(s.calls[id].local))]))
    else None
  }

  /** The gateway refuses on DENIED and EXPIRED, and goes on with anything else. */
  function DoReturnDecision(s: System, id: string): Option<System> {
    if CallAt(s, id, Returning) then
      var local := s.calls[id].local;
      var refused := local.status == DENIED || local.status == EXPIRED;
      Some(Goto(s, id, if refused then Finished else Cleared).(log := s.log + [WaitReturned(id, OutcomeOf(local))]))
    else None
  }

  function DoCaptureNothing(s: System, id: string): Option<System> {
    if CallAt(s, id, Cleared) then Some(Goto(s, id, Armed)) else None
  }

  function DoCaptureImage(s: System, id: string, kind: string, payload: Payload, now: real): Option<System> {
    if CallAt(s, id, Cleared) && s.calls[id].risk.reversibility == COMPENSABLE && WellKinded(kind, payload)
    then Some(Goto(s, id, Armed).(journal := InsertJournal(s.journal, id, kind, payload, now)))
    else None
  }

  function DoForward(s: System, id: string): Option<System> {
    if CallAt(s, id, Armed) then Some(Goto(s, id, Finished).(log := s.log + [Forwarded(id)])) else None
  }

  /** Cancellation or an exception at any await; inside the wait the `finally` still pops. */
  function DoCancelCall(s: System, id: string): Option<System> {
    if s.mode.Serving? && id in s.calls then
      var phase := s.calls[id].phase;
      var t := Goto(s, id, Finished);
      Some(if phase == Waiting || phase == TimedOut || phase == Leaving then t.(holds := Forget(s.holds, id)) else t)
    else None
  }

  // ---- Decisions --------------------------------------------------------------

  predicate DecisionAt(s: System, r: nat, phase: DecisionPhase) {
    s.mode.Serving? && r in s.decisions && s.decisions[r].phase == phase
  }

  function Decide(s: System, r: nat, phase: DecisionPhase): System
    requires r in s.decisions
  {
    s.(decisions := s.decisions[r := s.decisions[r].(phase := phase)])
  }

  function DoBeginDecide(s: System, r: nat, id: string, approved: bool, decidedBy: string): Option<System> {
    if s.mode.Serving? && r !in s.decisions
    then Some(s.(decisions := s.decisions[r := Decision(id, approved, decidedBy, Checking)]))
    else None
  }

  function DoDecideCheck(s: System, r: nat): Option<System> {
    if DecisionAt(s, r, Checking)
    then Some(Decide(s, r, if s.decisions[r].id in s.actions then Updating else Answered))
    else None
  }

  function DoDecideUpdate(s: System, r: nat, now: real): Option<System> {
    if DecisionAt(s, r, Updating) then
      var d := s.decisions[r];
      Some(Decide(s, r, Releasing).(actions := ResolveAction(s.actions, d.id, Decided(d.approved, d.decidedBy, now))))
    else None
  }

  function DoDecideRelease(s: System, r: nat): Option<System> {
    if DecisionAt(s, r, Releasing)
    then Some(Decide(s, r, Rereading).(holds := Release(s.holds, s.decisions[r].id)))
    else None
  }

  function DoDecideRead(s: System, r: nat): Option<System> {
    if DecisionAt(s, r, Rereading) then
      var id := s.decisions[r].id;
      Some(Decide(s, r, if id in s.actions then Announcing(s.actions[id]) else Answered))
    else None
  }

  function DoDecideAnnounce(s: System, r: nat): Option<System> {
    if s.mode.Serving? && r in s.decisions && s.decisions[r].phase.Announcing? then
      var d := s.decisions[r];
      Some(Decide(s, r, Answering(d.phase.row)).(log := s.log + [ResolvedAnnounced(d.id, OutcomeOf(d.phase.row))]))
    else None
  }

  function DoDecideAnswer(s: System, r: nat): Option<System> {
    if s.mode.Serving? && r in s.decisions && s.decisions[r].phase.Answering? then
      var d := s.decisions[r];
      Some(Decide(s, r, Answered).(log := s.log + [DecideReturned(d.id, OutcomeOf(d.phase.row))]))
    else None
  }

  /** A decision lost between its UPDATE and its release leaves the waiter to its timeout. */
  function DoCancelDecide(s: System, r: nat): Option<System> {
    if s.mode.Serving? && r in s.decisions then
      var d := s.decisions[r];
      Some(Decide(s, r, Answered).(missed := s.missed + if d.phase.Releasing? then {d.id} else {}))
    else None
  }

  // ---- Undo requests ----------------------------------------------------------

  predicate UndoLive(s: System, u: nat) {
    s.mode.Serving? && u in s.undos
  }

  function GotoUndo(s: System, u: nat, phase: UndoPhase): System
    requires u in s.undos
  {
    s.(undos := s.undos[u := s.undos[u].(phase := phase)])
  }

  function DoBeginUndo(s: System, u: nat, id: string, decidedBy: string): Option<System> {
    if s.mode.Serving? && u !in s.undos then Some(s.(undos := s.undos[u := Undo(id, decidedBy, Fetching)])) else None
  }

  function DoUndoRead(s: System, u: nat): Option<System> {
    if UndoLive(s, u) && s.undos[u].phase.Fetching? then
      var id := s.undos[u].id;
      var ok := id in s.actions && Executable(s.actions[id].status);
      Some(GotoUndo(s, u, if ok then FetchingJournal(s.actions[id]) else Closed))
    else None
  }

  /** The journal entry is read; a fresh uuid is drawn for the undo row. */
  function DoUndoFetch(s: System, u: nat, undoId: string): Option<System> {
    if UndoLive(s, u) && s.undos[u].phase.FetchingJournal? && undoId !in s.issued then
      var id := s.undos[u].id;
      if id !in s.journal || s.journal[id].undoneAt.Some? then Some(GotoUndo(s, u, Closed))
      else Some(GotoUndo(s, u, Marking(s.undos[u].phase.row, s.journal[id], undoId)).(issued := s.issued + {undoId}))
    else None
  }

  /** The compare-and-set that only one request per entry can win. */
  function DoUndoMark(s: System, u: nat, now: real): Option<System> {
    if UndoLive(s, u) && s.undos[u].phase.Marking? then
      var id := s.undos[u].id;
      var phase := s.undos[u].phase;
      if !Undoes(s.journal, id) then Some(GotoUndo(s, u, Closed))
      else
        var marked := s.(journal := MarkUndone(s.journal, id, phase.undoId, now));
        match BuildCompensation(phase.entry.kind, phase.entry.payload)
        case Err(_) => Some(GotoUndo(marked, u, Closed).(log := s.log + [BuildRaised(id)]))
        case Ok(calls) => Some(GotoUndo(marked, u, Compensating(phase.row, phase.undoId, |calls|, calls)))
    else None
  }

  function DoUndoCall(s: System, u: nat, ok: bool): Option<System> {
    if UndoLive(s, u) && s.undos[u].phase.Compensating? && s.undos[u].phase.rest != [] then
      var phase := s.undos[u].phase;
      var next := if ok then phase.(rest := phase.rest[1..]) else Closed;
      Some(GotoUndo(s, u, next).(log := s.log + [Compensated(s.undos[u].id, phase.undoId, phase.rest[0])]))
    else None
  }

  /** The row that records a compensation, in the trace of the action it undoes. */
  function UndoRow(undo: Undo, row: Action, undoId: string, total: nat, now: real): Action {
    Action(undoId, row.traceId, row.agentId, "undo:" + row.tool, row.resourceName,
           Some("{\"undo_of\": \"" + undo.id + "\", \"calls\": " + PrintNat(total) + "}"),
           row.riskLevel, UNDO_RULE, APPROVED, Some(undo.decidedBy), now, Some(now), IRREVERSIBLE, None, false)
  }

  function DoUndoRecord(s: System, u: nat, now: real): Option<System> {
    if UndoLive(s, u) && s.undos[u].phase.Compensating? && s.undos[u].phase.rest == [] then
      var phase := s.undos[u].phase;
      match InsertAction(s.actions, UndoRow(s.undos[u], phase.row, phase.undoId, phase.total, now))
      case None => Some(GotoUndo(s, u, Closed))
      case Some(t) => Some(GotoUndo(s, u, AnnouncingUndo(phase.undoId)).(actions := t))
    else None
  }

  function DoUndoAnnounce(s: System, u: nat): Option<System> {
    if UndoLive(s, u) && s.undos[u].phase.AnnouncingUndo?
    then Some(GotoUndo(s, u, Closed).(log := s.log + [UndoneAnnounced(s.undos[u].phase.undoId)]))
    else None
  }

  function DoCancelUndo(s: System, u: nat): Option<System> {
    if UndoLive(s, u) then Some(GotoUndo(s, u, Closed)) else None
  }

  // ---- Crash and restart ------------------------------------------------------

  /** Tables survive, everything in memory is gone. The ghost log is kept. */
  function DoCrash(s: System): Option<System> {
    Some(s.(holds := NO_HOLDS, mode := Down, calls := map[], decisions := map[], undos := map[]))
  }

  ghost function DoRestart(s: System, todo: seq<Action>, now: real): Option<System> {
    if s.mode.Down? && Lists(todo, s.actions, Some(PENDING))
    then Some(s.(mode := Recovering(seq(|todo|, i requires 0 <= i < |todo| => todo[i].actionId), false, now)))
    else None
  }

  function DoRecoverRow(s: System): Option<System> {
    if s.mode.Recovering? && s.mode.todo != [] && !s.mode.updated
    then Some(s.(actions := ResolveAction(s.actions, s.mode.todo[0], Expired(s.mode.at)),
      mode := s.mode.(updated := true)))
    else None
  }

  function DoRecoverAnnounce(s: System): Option<System> {
    if s.mode.Recovering? && s.mode.todo != [] && s.mode.updated then
      var id := s.mode.todo[0];
      var next := s.(mode := s.mode.(todo := s.mode.todo[1..], updated := false));
      Some(if id in s.actions then next.(log := s.log + [ResolvedAnnounced(id, OutcomeOf(s.actions[id]))]) else next)
    else None
  }

  function DoServe(s: System): Option<System> {
    if s.mode.Recovering? && s.mode.todo == [] then Some(s.(mode := Serving)) else None
  }

  function DoFlagNovel(s: System, id: string): Option<System> {
    if s.mode.Serving? then Some(s.(actions := MarkNovel(s.actions, id))) else None
  }

  // ---- Runs -------------------------------------------------------------------

  function TakeCall(c: Config, s: System, step: CallStep): Option<System> {
    match step
    case BeginCall(id, r, now) => DoBeginCall(c, s, id, r, now)
    case InsertRow(id) => DoInsertRow(s, id)
    case RegisterEvent(id) => DoRegisterEvent(c, s, id)
    case AnnouncePending(id) => DoAnnouncePending(s, id)
    case EnterWait(id) => DoEnterWait(s, id)
    case LookUp(id) => DoLookUp(s, id)
    case Wake(id) => DoWake(s, id)
    case TimeOut(id) => DoTimeOut(s, id)
    case Expire(id, now) => DoExpire(s, id, now)
    case LeaveWait(id) => DoLeaveWait(s, id)
    case ReadBack(id) => DoReadBack(s, id)
    case AnnounceExpiry(id) => DoAnnounceExpiry(s, id)
    case ReturnDecision(id) => DoReturnDecision(s, id)
    case CaptureNothing(id) => DoCaptureNothing(s, id)
    case CaptureImage(id, kind, payload, now) => DoCaptureImage(s, id, kind, payload, now)
    case Forward(id) => DoForward(s, id)
    case CancelCall(id) => DoCancelCall(s, id)
  }

  function TakeDecision(s: System, step: DecisionStep): Option<System> {
    match step
    case BeginDecide(r, id, approved, who) => DoBeginDecide(s, r, id, approved, who)
    case DecideCheck(r) => DoDecideCheck(s, r)
    case DecideUpdate(r, now) => DoDecideUpdate(s, r, now)
    case DecideRelease(r) => DoDecideRelease(s, r)
    case DecideRead(r) => DoDecideRead(s, r)
    case DecideAnnounce(r) => DoDecideAnnounce(s, r)
    case DecideAnswer(r) => DoDecideAnswer(s, r)
    case CancelDecide(r) => DoCancelDecide(s, r)
  }

  function TakeUndo(s: System, step: UndoStep): Option<System> {
    match step
    case BeginUndo(u, id, who) => DoBeginUndo(s, u, id, who)
    case UndoRead(u) => DoUndoRead(s, u)
    case UndoFetch(u, undoId) => DoUndoFetch(s, u, undoId)
    case UndoMark(u, now) => DoUndoMark(s, u, now)
    case UndoCall(u, ok) => DoUndoCall(s, u, ok)
    case UndoRecord(u, now) => DoUndoRecord(s, u, now)
    case UndoAnnounce(u) => DoUndoAnnounce(s, u)
    case CancelUndo(u) => DoCancelUndo(s, u)
  }

  ghost function TakeSystem(s: System, step: SystemStep): Option<System> {
    match step
    case FlagNovel(id) => DoFlagNovel(s, id)
    case Crash => DoCrash(s)
    case Restart(todo, now) => DoRestart(s, todo, now)
    case RecoverRow => DoRecoverRow(s)
    case RecoverAnnounce => DoRecoverAnnounce(s)
    case Serve => DoServe(s)
  }

  /** The system after a step, None where the step is not enabled. */
  ghost function Take(c: Config, s: System, step: Step): Option<System> {
    match step
    case OfCall(m) => TakeCall(c, s, m)
    case OfDecision(m) => TakeDecision(s, m)
    case OfUndo(m) => TakeUndo(s, m)
    case OfSystem(m) => TakeSystem(s, m)
  }

  ghost predicate Next(c: Config, s: System, t: System) {
    exists step :: Take(c, s, step) == Some(t)
  }

  ghost predicate StepsAt(c: Config, run: seq<System>, i: nat)
    requires i + 1 < |run|
  {
    Next(c, run[i], run[i + 1])
  }

  /** Every interleaving of any number of calls, decisions, undo requests and restarts. */
  ghost predicate IsRun(c: Config, run: seq<System>) {
    && run != [] && run[0] == INIT
    && forall i :: 0 <= i < |run| - 1 ==> StepsAt(c, run, i)
  }
}
