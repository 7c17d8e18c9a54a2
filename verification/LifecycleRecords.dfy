/** What rows and announcements say: each row what its request said, each hold announced when it
    begins and when it ends, each event in the map one that a call has put there and not taken. */
module LifecycleRecords {
  import opened Records
  import opened Tables
  import opened Holds
  import opened Lifecycle
  import opened LifecycleInvariant
  import opened LifecycleTheorems
  import opened LifecycleExecution
  import opened LifecycleCauses
  import opened LifecycleProgress

  // ---- Rows and their requests ------------------------------------------------

  /** The id belongs to the request: its row, built or stored, is the request's, and no undo request
      has the id for its own. */
  ghost predicate BelongsTo(s: System, id: string, q: Request, now: real) {
    && id in s.issued && (forall u :: u in s.undos ==> UndoIdOf(s.undos[u]) != Some(id))
    && (id in s.calls && s.calls[id].phase == Inserting ==> RowOf(s.calls[id].local, id, q, now))
    && (id in s.actions ==> RowOf(s.actions[id], id, q, now))
  }

  lemma {:induction false} BeginBelongs(c: Config, s: System, id: string, q: Request, now: real, t: System)
    requires Inv(c, s) && DoBeginCall(c, s, id, q, now) == Some(t)
    ensures BelongsTo(t, id, q, now)
  {
    forall u | u in s.undos ensures UndoIdOf(s.undos[u]) != Some(id) {
      assert UndoOk(s, s.undos[u]);
    }
  }

  lemma {:induction false} SameRowOf(a: Action, b: Action, id: string, q: Request, now: real)
    requires SameRequest(a, b) && RowOf(a, id, q, now)
    ensures RowOf(b, id, q, now)
  {
  }

  lemma {:induction false} InsertBelongs(s: System, x: string, t: System, id: string, q: Request, now: real)
    requires DoInsertRow(s, x) == Some(t) && BelongsTo(s, id, q, now) && s.calls[x].local.actionId == x
    ensures BelongsTo(t, id, q, now)
  {
  }

  lemma {:induction false} KeptBelongs(s: System, t: System, id: string, q: Request, now: real)
    requires BelongsTo(s, id, q, now) && Evolves(s.actions, t.actions) && s.issued <= t.issued
    requires forall u :: u in t.undos ==> UndoIdOf(t.undos[u]) != Some(id)
    requires id in t.actions ==> id in s.actions
    requires id in t.calls && t.calls[id].phase == Inserting ==>
      id in s.calls && s.calls[id].phase == Inserting && t.calls[id].local == s.calls[id].local
    ensures BelongsTo(t, id, q, now)
  {
    if id in t.actions {
      SameRowOf(s.actions[id], t.actions[id], id, q, now);
    }
  }

  lemma {:induction false} SubmitLeavesInserting(c: Config, s: System, step: CallStep, t: System)
    requires TakeCall(c, s, step) == Some(t)
    requires step.InsertRow? || step.RegisterEvent? || step.AnnouncePending? || step.EnterWait?
    ensures step.id in t.calls && t.calls[step.id].phase != Inserting
  {
    match step
    case InsertRow(id) => assert t.calls[id].phase == Inserted || t.calls[id].phase == Finished;
    case RegisterEvent(id) => assert t.calls[id].phase == AnnouncingPending || t.calls[id].phase == Submitted;
    case AnnouncePending(id) => assert t.calls[id].phase == Submitted;
    case EnterWait(id) =>
  }

  lemma {:induction false} WaitLeavesInserting(c: Config, s: System, step: CallStep, t: System)
    requires TakeCall(c, s, step) == Some(t)
    requires step.LookUp? || step.Wake? || step.TimeOut? || step.Expire? || step.LeaveWait? || step.ReadBack?
    ensures step.id in t.calls && t.calls[step.id].phase != Inserting
  {
    match step
    case LookUp(id) => assert t.calls[id].phase == Returning || t.calls[id].phase == Finished;
    case Wake(id) => assert t.calls[id].phase == Reading(false);
    case TimeOut(id) => assert t.calls[id].phase == TimedOut;
    case Expire(id, now) => assert t.calls[id].phase == Leaving;
    case LeaveWait(id) => assert t.calls[id].phase == Reading(true);
    case ReadBack(id) =>
  }

  lemma {:induction false} GateLeavesInserting(c: Config, s: System, step: CallStep, t: System)
    requires TakeCall(c, s, step) == Some(t) && !Early(step) && !step.InsertRow? && !step.Expire?
    requires !step.LeaveWait? && !step.ReadBack?
    ensures step.id in t.calls && t.calls[step.id].phase != Inserting
  {
  }

  lemma {:induction false} OnlyBeginInserts(c: Config, s: System, step: CallStep, t: System, id: string)
    requires GateOk(c, s) && TakeCall(c, s, step) == Some(t) && id in s.issued
    requires id in t.calls && t.calls[id].phase == Inserting
    ensures id in s.calls && t.calls[id] == s.calls[id]
  {
    if step.id != id {
      OthersStay(c, s, step, t, id);
    } else if step.InsertRow? || step.RegisterEvent? || step.AnnouncePending? || step.EnterWait? {
      SubmitLeavesInserting(c, s, step, t);
    } else if step.LookUp? || step.Wake? || step.TimeOut? || step.Expire? || step.LeaveWait? || step.ReadBack? {
      WaitLeavesInserting(c, s, step, t);
    } else if !step.BeginCall? {
      GateLeavesInserting(c, s, step, t);
    }
  }

  lemma {:induction false} UndosUntouchedByCall(c: Config, s: System, step: CallStep, t: System)
    requires GateOk(c, s) && TakeCall(c, s, step) == Some(t)
    ensures t.undos == s.undos && s.issued <= t.issued
  {
    if !step.BeginCall? && !step.CaptureImage? {
      StepHasContext(c, s, step);
      if Early(step) { EarlyStepMoves(c, s, step, t); } else { LateStepMoves(c, s, step, t); }
    }
  }

  lemma {:induction false} CallBelongs(c: Config, s: System, step: CallStep, t: System, id: string, q: Request,
      now: real)
    requires Inv(c, s) && TakeCall(c, s, step) == Some(t) && BelongsTo(s, id, q, now)
    ensures BelongsTo(t, id, q, now)
  {
    if step.InsertRow? {
      assert CallOk(c, s.actions, s.holds, step.id, s.calls[step.id]);
      InsertBelongs(s, step.id, t, id, q, now);
    } else {
      CallHistory(c, s, step, t);
      UndosUntouchedByCall(c, s, step, t);
      if id in t.calls && t.calls[id].phase == Inserting { OnlyBeginInserts(c, s, step, t, id); }
      if Early(step) {
        EarlyStepsAreQuiet(c, s, step, t);
      } else if !step.Expire? {
        LateStepsAreQuiet(c, s, step, t);
      }
      KeptBelongs(s, t, id, q, now);
    }
  }

  lemma {:induction false} UndoIdsFrom(s: System, step: UndoStep, t: System, u: nat, id: string)
    requires TakeUndo(s, step) == Some(t) && u in t.undos && UndoIdOf(t.undos[u]) == Some(id) && id in s.issued
    ensures u in s.undos && UndoIdOf(s.undos[u]) == Some(id)
  {
  }

  lemma {:induction false} UndoBelongs(c: Config, s: System, step: UndoStep, t: System, id: string, q: Request,
      now: real)
    requires Inv(c, s) && TakeUndo(s, step) == Some(t) && BelongsTo(s, id, q, now)
    ensures BelongsTo(t, id, q, now)
  {
    forall u | u in t.undos ensures UndoIdOf(t.undos[u]) != Some(id) {
      if UndoIdOf(t.undos[u]) == Some(id) { UndoIdsFrom(s, step, t, u, id); }
    }
    UndoHistory(c, s, step, t);
    if step.UndoRecord? {
      RecordingRecords(c, s, t, step.u, step.now);
    } else {
      UndoStepFrame(s, step, t);
    }
    KeptBelongs(s, t, id, q, now);
  }

  lemma {:induction false} DecisionBelongs(c: Config, s: System, step: DecisionStep, t: System, id: string,
      q: Request, now: real)
    requires GateOk(c, s) && TakeDecision(s, step) == Some(t) && BelongsTo(s, id, q, now)
    ensures BelongsTo(t, id, q, now)
  {
    DecisionStepMoves(c, s, step, t);
    KeptBelongs(s, t, id, q, now);
  }

  lemma {:induction false} SystemBelongs(c: Config, s: System, step: SystemStep, t: System, id: string, q: Request,
      now: real)
    requires GateOk(c, s) && TakeSystem(s, step) == Some(t) && BelongsTo(s, id, q, now)
    ensures BelongsTo(t, id, q, now)
  {
    SystemStepMoves(c, s, step, t);
    KeptBelongs(s, t, id, q, now);
  }

  lemma {:induction false} NextBelongs(c: Config, s: System, t: System, id: string, q: Request, now: real)
    requires Inv(c, s) && Next(c, s, t) && BelongsTo(s, id, q, now)
    ensures BelongsTo(t, id, q, now)
  {
    var step :| Take(c, s, step) == Some(t);
    match step
    case OfCall(m) => CallBelongs(c, s, m, t, id, q, now);
    case OfDecision(m) => DecisionBelongs(c, s, m, t, id, q, now);
    case OfUndo(m) => UndoBelongs(c, s, m, t, id, q, now);
    case OfSystem(m) => SystemBelongs(c, s, m, t, id, q, now);
  }

  /** The gateway call of the request begins in the step from k to k + 1. */
  ghost predicate BeginsAt(c: Config, run: seq<System>, k: nat, id: string, q: Request, now: real) {
    k + 1 < |run| && DoBeginCall(c, run[k], id, q, now) == Some(run[k + 1])
  }

  lemma {:induction false} BegunBelongs(c: Config, run: seq<System>, k: nat, id: string, q: Request, now: real)
    requires IsRun(c, run) && BeginsAt(c, run, k, id, q, now)
    ensures BelongsTo(run[k + 1], id, q, now)
  {
    RunKeeps(c, run, k);
    BeginBelongs(c, run[k], id, q, now, run[k + 1]);
  }

  lemma {:induction false} RunStepBelongs(c: Config, run: seq<System>, k: nat, id: string, q: Request, now: real)
    requires IsRun(c, run) && k + 1 < |run| && BelongsTo(run[k], id, q, now)
    ensures BelongsTo(run[k + 1], id, q, now)
  {
    RunKeeps(c, run, k);
    RunSteps(c, run, k);
    NextBelongs(c, run[k], run[k + 1], id, q, now);
  }

  lemma {:induction false} RunBelongs(c: Config, run: seq<System>, k: nat, i: nat, id: string, q: Request, now: real)
    requires IsRun(c, run) && k < i < |run| && BeginsAt(c, run, k, id, q, now)
    ensures BelongsTo(run[i], id, q, now)
    decreases i
  {
    if k == i - 1 {
      BegunBelongs(c, run, k, id, q, now);
    } else {
      RunBelongs(c, run, k, i - 1, id, q, now);
      RunStepBelongs(c, run, i - 1, id, q, now);
    }
  }

  /** In every run, whatever is stored under the id of a gateway call says what its request said:
      trace, agent, tool, resource, arguments, blast radius, level, rule and reversibility. */
  lemma {:induction false} RowSaysItsRequest(c: Config, run: seq<System>, k: nat, i: nat, id: string, q: Request,
      now: real)
    requires IsRun(c, run) && k < i < |run| && BeginsAt(c, run, k, id, q, now) && id in run[i].actions
    ensures RowOf(run[i].actions[id], id, q, now)
  {
    RunBelongs(c, run, k, i, id, q, now);
  }

  /** The flag of the creep detector goes to the row it names, in any serving state, and to nothing
      else. */
  lemma {:induction false} FlagIsStored(s: System, id: string)
    requires s.mode.Serving?
    ensures var t := DoFlagNovel(s, id);
      && t.Some? && t.value == s.(actions := t.value.actions)
      && (id in s.actions ==> t.value.actions == s.actions[id := s.actions[id].(novel := true)])
      && (id !in s.actions ==> t.value.actions == s.actions)
  {
  }

  // ---- Announcements of a hold ------------------------------------------------

  /** The hold has been announced as pending. */
  predicate Shown(phase: Phase) {
    phase != Inserting && phase != Inserted && phase != AnnouncingPending && phase != Finished
  }

  /** Past the expiry of the hold. */
  predicate PastExpiry(phase: Phase) {
    phase == Leaving || phase == Reading(true) || phase == AnnouncingExpiry || phase == Returning || phase == Finished
  }

  ghost predicate Returned(s: System, id: string) {
    Terminal(s.actions, id) && WaitReturned(id, OutcomeOf(s.actions[id])) in s.log
  }

  ghost predicate ExpiryTold(s: System, id: string) {
    id in s.actions && s.actions[id].status == EXPIRED ==> ResolvedAnnounced(id, OutcomeOf(s.actions[id])) in s.log
  }

  /** What has been said about a held call by the time it is in a phase. */
  ghost predicate Announced(c: Config, s: System, id: string) {
    id in s.calls && s.calls[id].risk.riskLevel in c.heldRiskLevels ==>
      var phase := s.calls[id].phase;
      && (Shown(phase) ==> PendingAnnounced(id) in s.log)
      && (phase == Cleared || phase == Armed ==> Returned(s, id))
      && (id in s.actions && s.actions[id].status == EXPIRED ==> PastExpiry(phase))
      && (phase == Returning ==> ExpiryTold(s, id))
  }

  /** All has been said about a hold that is over. */
  ghost predicate SaidAll(s: System, id: string) {
    PendingAnnounced(id) in s.log && Returned(s, id) && ExpiryTold(s, id)
  }

  ghost predicate HeldCall(c: Config, s: System, id: string) {
    id in s.calls && s.calls[id].risk.riskLevel in c.heldRiskLevels
  }

  lemma {:induction false} LogKeeps(log: seq<LogEvent>, longer: seq<LogEvent>, e: LogEvent)
    requires log <= longer && e in log
    ensures e in longer
  {
  }

  lemma {:induction false} AppendedIsThere(log: seq<LogEvent>, e: LogEvent)
    ensures e in log + [e] && log <= log + [e]
  {
    assert (log + [e])[|log|] == e;
  }

  lemma {:induction false} SubmitAnnounces(c: Config, s: System, step: CallStep, t: System)
    requires CallContext(c, s, step.id) && TakeCall(c, s, step) == Some(t) && Announced(c, s, step.id)
    requires step.InsertRow? || step.RegisterEvent? || step.AnnouncePending?
    ensures Announced(c, t, step.id)
  {
    AppendedIsThere(s.log, PendingAnnounced(step.id));
  }

  lemma {:induction false} EnterAnnounces(c: Config, s: System, id: string, t: System)
    requires CallContext(c, s, id) && DoEnterWait(s, id) == Some(t) && Announced(c, s, id)
    ensures Announced(c, t, id)
  {
  }

  lemma {:induction false} BlockAnnounces(c: Config, s: System, step: CallStep, t: System)
    requires CallContext(c, s, step.id) && TakeCall(c, s, step) == Some(t) && Announced(c, s, step.id)
    requires step.Wake? || step.TimeOut?
    ensures Announced(c, t, step.id)
  {
  }

  lemma {:induction false} ExpireAnnounces(c: Config, s: System, step: CallStep, t: System)
    requires CallContext(c, s, step.id) && TakeCall(c, s, step) == Some(t) && Announced(c, s, step.id)
    requires step.Expire? || step.LeaveWait?
    ensures Announced(c, t, step.id)
  {
  }

  lemma {:induction false} LookAnnounces(c: Config, s: System, id: string, t: System)
    requires CallContext(c, s, id) && DoLookUp(s, id) == Some(t) && Announced(c, s, id)
    ensures Announced(c, t, id)
  {
  }

  lemma {:induction false} ReadAnnounces(c: Config, s: System, id: string, t: System)
    requires CallContext(c, s, id) && DoReadBack(s, id) == Some(t) && Announced(c, s, id)
    ensures Announced(c, t, id)
  {
  }

  lemma {:induction false} ExpiryAnnounces(c: Config, s: System, id: string, t: System)
    requires CallContext(c, s, id) && DoAnnounceExpiry(s, id) == Some(t) && Announced(c, s, id)
    ensures Announced(c, t, id)
  {
    AppendedIsThere(s.log, ResolvedAnnounced(id, OutcomeOf(s.calls[id].local)));
  }

  lemma {:induction false} ReturnAnnounces(c: Config, s: System, id: string, t: System)
    requires CallContext(c, s, id) && DoReturnDecision(s, id) == Some(t) && Announced(c, s, id)
    ensures Announced(c, t, id)
    ensures HeldCall(c, s, id) ==> SaidAll(t, id)
  {
    AppendedIsThere(s.log, WaitReturned(id, OutcomeOf(s.calls[id].local)));
  }

  lemma {:induction false} RunAnnounces(c: Config, s: System, step: CallStep, t: System)
    requires CallContext(c, s, step.id) && TakeCall(c, s, step) == Some(t) && Announced(c, s, step.id)
    requires step.CaptureNothing? || step.CaptureImage?
    ensures Announced(c, t, step.id)
  {
  }

  lemma {:induction false} CancelAnnounces(c: Config, s: System, id: string, t: System)
    requires CallContext(c, s, id) && DoCancelCall(s, id) == Some(t) && Announced(c, s, id)
    ensures Announced(c, t, id)
  {
  }

  lemma {:induction false} ForwardAnnounces(c: Config, s: System, id: string, t: System)
    requires CallContext(c, s, id) && DoForward(s, id) == Some(t) && Announced(c, s, id)
    ensures Announced(c, t, id)
    ensures HeldCall(c, s, id) ==> SaidAll(t, id)
  {
    AppendedIsThere(s.log, Forwarded(id));
  }

  lemma {:induction false} OwnStepAnnounces(c: Config, s: System, step: CallStep, t: System)
    requires CallContext(c, s, step.id) && TakeCall(c, s, step) == Some(t) && Announced(c, s, step.id)
    requires !step.BeginCall?
    ensures Announced(c, t, step.id)
  {
    if step.InsertRow? || step.RegisterEvent? || step.AnnouncePending? {
      SubmitAnnounces(c, s, step, t);
    } else if step.Wake? || step.TimeOut? {
      BlockAnnounces(c, s, step, t);
    } else if step.Expire? || step.LeaveWait? {
      ExpireAnnounces(c, s, step, t);
    } else if step.CaptureNothing? || step.CaptureImage? {
      RunAnnounces(c, s, step, t);
    } else {
      match step
      case EnterWait(id) => EnterAnnounces(c, s, id, t);
      case CancelCall(id) => CancelAnnounces(c, s, id, t);
      case LookUp(id) => LookAnnounces(c, s, id, t);
      case ReadBack(id) => ReadAnnounces(c, s, id, t);
      case AnnounceExpiry(id) => ExpiryAnnounces(c, s, id, t);
      case ReturnDecision(id) => ReturnAnnounces(c, s, id, t);
      case Forward(id) => ForwardAnnounces(c, s, id, t);
    }
  }

  // ---- Steps of others --------------------------------------------------------

  ghost predicate SameRow(s: System, t: System, id: string) {
    (id in t.actions <==> id in s.actions) && (id in s.actions ==> t.actions[id] == s.actions[id])
  }

  lemma {:induction false} OtherRowsStay(c: Config, s: System, step: CallStep, t: System, id: string)
    requires GateOk(c, s) && TakeCall(c, s, step) == Some(t) && step.id != id
    ensures SameRow(s, t, id)
  {
    if step.InsertRow? {
      assert CallOk(c, s.actions, s.holds, step.id, s.calls[step.id]);
    } else if Early(step) {
      EarlyStepsAreQuiet(c, s, step, t);
    } else if !step.Expire? {
      LateStepsAreQuiet(c, s, step, t);
    }
  }

  ghost predicate ExpiredNow(s: System, id: string) {
    id in s.actions && s.actions[id].status == EXPIRED
  }

  lemma {:induction false} DecisionExpiresNothing(s: System, step: DecisionStep, t: System, id: string)
    requires TakeDecision(s, step) == Some(t) && ExpiredNow(t, id)
    ensures ExpiredNow(s, id)
  {
    if !step.DecideUpdate? { QuietDecisionStep(s, step, t); }
  }

  lemma {:induction false} UndoExpiresNothing(s: System, step: UndoStep, t: System, id: string)
    requires TakeUndo(s, step) == Some(t) && ExpiredNow(t, id)
    ensures ExpiredNow(s, id)
  {
    if !step.UndoRecord? { UndoStepFrame(s, step, t); }
  }

  lemma {:induction false} SystemExpiresNothing(s: System, step: SystemStep, t: System, id: string)
    requires ModeOk(s) && TakeSystem(s, step) == Some(t) && ExpiredNow(t, id) && id in t.calls
    ensures ExpiredNow(s, id)
  {
  }

  lemma {:induction false} OthersAnnounce(c: Config, s: System, t: System, id: string)
    requires Announced(c, s, id) && SameCall(s, t, id) && History(s, t)
    requires id in t.calls && ExpiredNow(t, id) ==> ExpiredNow(s, id)
    requires Inv(c, s)
    ensures Announced(c, t, id)
  {
    if id in s.calls { assert CallOk(c, s.actions, s.holds, id, s.calls[id]); }
  }

  lemma {:induction false} CallAnnounces(c: Config, s: System, step: CallStep, t: System, id: string)
    requires Inv(c, s) && TakeCall(c, s, step) == Some(t) && Announced(c, s, id)
    ensures Announced(c, t, id)
  {
    if step.id != id {
      OthersStay(c, s, step, t, id);
      OtherRowsStay(c, s, step, t, id);
      CallHistory(c, s, step, t);
      OthersAnnounce(c, s, t, id);
    } else if !step.BeginCall? {
      StepHasContext(c, s, step);
      OwnStepAnnounces(c, s, step, t);
    }
  }

  lemma {:induction false} NextAnnounces(c: Config, s: System, t: System, id: string)
    requires Inv(c, s) && Next(c, s, t) && Announced(c, s, id)
    ensures Announced(c, t, id)
  {
    var step :| Take(c, s, step) == Some(t);
    StepHistory(c, s, step, t);
    match step
    case OfCall(m) => CallAnnounces(c, s, m, t, id);
    case OfDecision(m) =>
      DecisionStepMoves(c, s, m, t);
      if ExpiredNow(t, id) { DecisionExpiresNothing(s, m, t, id); }
      OthersAnnounce(c, s, t, id);
    case OfUndo(m) =>
      UndosLeaveCalls(s, m, t);
      if ExpiredNow(t, id) { UndoExpiresNothing(s, m, t, id); }
      OthersAnnounce(c, s, t, id);
    case OfSystem(m) =>
      SystemStepMoves(c, s, m, t);
      if id in t.calls {
        if ExpiredNow(t, id) { SystemExpiresNothing(s, m, t, id); }
        OthersAnnounce(c, s, t, id);
      }
  }

  lemma {:induction false} RunAnnounced(c: Config, run: seq<System>, i: nat, id: string)
    requires IsRun(c, run) && i < |run|
    ensures Announced(c, run[i], id)
  {
    if i > 0 {
      RunAnnounced(c, run, i - 1, id);
      RunKeeps(c, run, i - 1);
      RunSteps(c, run, i - 1);
      NextAnnounces(c, run[i - 1], run[i], id);
    }
  }

  // ---- A hold that is over ----------------------------------------------------

  lemma {:induction false} LateStepsGoOn(c: Config, s: System, step: CallStep, t: System)
    requires CallContext(c, s, step.id) && TakeCall(c, s, step) == Some(t) && !Early(step)
    requires !step.ReturnDecision? && !step.Forward? && !step.CancelCall?
    ensures !IsOver(t, step.id)
  {
  }

  lemma {:induction false} OwnEndSaysAll(c: Config, s: System, step: CallStep, t: System)
    requires GateOk(c, s) && TakeCall(c, s, step) == Some(t) && Announced(c, s, step.id) && HeldCall(c, s, step.id)
    requires IsOver(t, step.id) && !IsOver(s, step.id) && !step.CancelCall? && !step.BeginCall?
    ensures SaidAll(t, step.id)
  {
    StepHasContext(c, s, step);
    if step.ReturnDecision? {
      ReturnAnnounces(c, s, step.id, t);
    } else if step.Forward? {
      ForwardAnnounces(c, s, step.id, t);
    } else if Early(step) {
      EarlyDoesNotEnd(c, s, step, t);
    } else {
      LateStepsGoOn(c, s, step, t);
    }
  }

  lemma {:induction false} EarlyKeepsRisk(c: Config, s: System, step: CallStep, t: System)
    requires TakeCall(c, s, step) == Some(t) && Early(step) && !step.BeginCall?
    ensures step.id in s.calls && step.id in t.calls && t.calls[step.id].risk == s.calls[step.id].risk
  {
  }

  lemma {:induction false} LateKeepsRisk(c: Config, s: System, step: CallStep, t: System)
    requires TakeCall(c, s, step) == Some(t) && !Early(step)
    ensures step.id in s.calls && step.id in t.calls && t.calls[step.id].risk == s.calls[step.id].risk
  {
  }

  lemma {:induction false} CallKeepsRisk(c: Config, s: System, step: CallStep, t: System, id: string)
    requires GateOk(c, s) && TakeCall(c, s, step) == Some(t) && HeldCall(c, t, id)
    ensures HeldCall(c, s, id) || (step.BeginCall? && step.id == id)
  {
    if step.id != id {
      OthersStay(c, s, step, t, id);
    } else if !step.BeginCall? {
      if Early(step) { EarlyKeepsRisk(c, s, step, t); } else { LateKeepsRisk(c, s, step, t); }
    }
  }

  /** A held call that is over has been over, ended now with everything said, or was cancelled now. */
  lemma {:induction false} StepSaysAll(c: Config, s: System, t: System, id: string)
    requires Inv(c, s) && Next(c, s, t) && Announced(c, s, id) && HeldCall(c, t, id) && IsOver(t, id)
    ensures HeldCall(c, s, id)
    ensures IsOver(s, id) || SaidAll(t, id) || DoCancelCall(s, id) == Some(t)
  {
    var step :| Take(c, s, step) == Some(t);
    match step
    case OfCall(m) =>
      CallKeepsRisk(c, s, m, t, id);
      if m.id != id {
        OthersStay(c, s, m, t, id);
      } else if !m.CancelCall? && !IsOver(s, id) {
        OwnEndSaysAll(c, s, m, t);
      }
    case OfDecision(m) => DecisionStepMoves(c, s, m, t);
    case OfUndo(m) => UndosLeaveCalls(s, m, t);
    case OfSystem(m) => SystemStepMoves(c, s, m, t);
  }

  lemma {:induction false} SaidAllStays(s: System, t: System, id: string)
    requires History(s, t) && SaidAll(s, id)
    ensures SaidAll(t, id)
  {
  }

  lemma {:induction false} RunStepSaysAll(c: Config, run: seq<System>, k: nat, id: string)
    requires IsRun(c, run) && k + 1 < |run| && HeldCall(c, run[k + 1], id) && IsOver(run[k + 1], id)
    ensures HeldCall(c, run[k], id)
    ensures IsOver(run[k], id) || SaidAll(run[k + 1], id) || CancelledAt(run, k, id)
  {
    RunKeeps(c, run, k);
    RunSteps(c, run, k);
    RunAnnounced(c, run, k, id);
    StepSaysAll(c, run[k], run[k + 1], id);
  }

  /** In every run a hold that is over, its call not cancelled, was announced as pending; the waiter
      came back with the row's outcome; and if the row has expired, that was announced too. */
  lemma {:induction false} HoldIsAnnounced(c: Config, run: seq<System>, i: nat, id: string)
    requires IsRun(c, run) && i < |run| && HeldCall(c, run[i], id) && IsOver(run[i], id)
    requires forall k :: 0 <= k < i ==> !CancelledAt(run, k, id)
    ensures SaidAll(run[i], id)
  {
    RunStepSaysAll(c, run, i - 1, id);
    if IsOver(run[i - 1], id) {
      HoldIsAnnounced(c, run, i - 1, id);
      RunHistory(c, run, i - 1, i);
      SaidAllStays(run[i - 1], run[i], id);
    }
  }

  // ---- Events that stay in the map --------------------------------------------

  /** The call's event is in the map, or will be taken out by its wait. */
  predicate OwnsEvent(phase: Phase) {
    phase == AnnouncingPending || phase == Submitted || phase == Waiting || phase == TimedOut || phase == Leaving
  }

  ghost predicate Owned(s: System, id: string) {
    id in s.calls && OwnsEvent(s.calls[id].phase)
  }

  lemma {:induction false} PendingIsOwned(c: Config, s: System, id: string)
    requires GateOk(c, s) && id in s.holds.pending && id in s.calls && !IsOver(s, id)
    ensures Owned(s, id)
  {
    assert CallOk(c, s.actions, s.holds, id, s.calls[id]);
  }

  lemma {:induction false} EarlyAddsNoEvent(c: Config, s: System, step: CallStep, t: System)
    requires TakeCall(c, s, step) == Some(t) && Early(step) && !step.RegisterEvent?
    ensures t.holds.pending <= s.holds.pending
  {
  }

  lemma {:induction false} LateAddsNoEvent(c: Config, s: System, step: CallStep, t: System)
    requires TakeCall(c, s, step) == Some(t) && !Early(step)
    ensures t.holds.pending <= s.holds.pending
  {
  }

  lemma {:induction false} EndAddsNoEvent(c: Config, s: System, step: CallStep, t: System)
    requires GateOk(c, s) && TakeCall(c, s, step) == Some(t) && IsOver(t, step.id)
    ensures t.holds.pending <= s.holds.pending
  {
    if step.RegisterEvent? {
      EarlyDoesNotEnd(c, s, step, t);
    } else if Early(step) {
      EarlyAddsNoEvent(c, s, step, t);
    } else {
      LateAddsNoEvent(c, s, step, t);
    }
  }

  /** A call that owns an event ends only by a cancellation, and inside the wait that takes the event
      out of the map. */
  lemma {:induction false} OwnedEndsByCancel(c: Config, s: System, step: CallStep, t: System)
    requires GateOk(c, s) && TakeCall(c, s, step) == Some(t) && Owned(s, step.id)
    requires IsOver(t, step.id) && step.id in t.holds.pending
    ensures DoCancelCall(s, step.id) == Some(t)
    ensures s.calls[step.id].phase == AnnouncingPending || s.calls[step.id].phase == Submitted
  {
    if Early(step) {
      EarlyDoesNotEnd(c, s, step, t);
    } else if !step.CancelCall? {
      StepHasContext(c, s, step);
      LateStepsGoOn(c, s, step, t);
    }
  }

  /** The id was in the map before, and its call has not moved or is long over. */
  ghost predicate KeptPending(s: System, t: System, id: string) {
    id in s.holds.pending && (SameCall(s, t, id) || (IsOver(s, id) && IsOver(t, id)))
  }

  /** The step cancels the call when its event exists and its wait has not begun. */
  ghost predicate DropsEvent(s: System, t: System, id: string) {
    && Alive(s, id) && DoCancelCall(s, id) == Some(t)
    && (s.calls[id].phase == AnnouncingPending || s.calls[id].phase == Submitted)
  }

  /** Why an id is in the map after a step. */
  ghost predicate StaysPending(s: System, t: System, id: string) {
    Owned(t, id) || KeptPending(s, t, id) || DropsEvent(s, t, id)
  }

  lemma {:induction false} EndedPending(c: Config, s: System, step: CallStep, t: System)
    requires GateOk(c, s) && TakeCall(c, s, step) == Some(t) && step.id in t.holds.pending
    requires IsOver(t, step.id) && step.id in s.calls && s.mode.Serving?
    ensures StaysPending(s, t, step.id)
  {
    EndAddsNoEvent(c, s, step, t);
    if !IsOver(s, step.id) {
      PendingIsOwned(c, s, step.id);
      OwnedEndsByCancel(c, s, step, t);
      assert DropsEvent(s, t, step.id);
    } else {
      assert KeptPending(s, t, step.id);
    }
  }

  lemma {:induction false} OwnPending(c: Config, s: System, step: CallStep, t: System)
    requires GateOk(c, s) && GateOk(c, t) && TakeCall(c, s, step) == Some(t) && step.id in t.holds.pending
    requires step.id in s.calls && step.id in t.calls && s.mode.Serving?
    ensures StaysPending(s, t, step.id)
  {
    if IsOver(t, step.id) {
      EndedPending(c, s, step, t);
    } else {
      PendingIsOwned(c, t, step.id);
    }
  }

  lemma {:induction false} OtherPending(c: Config, s: System, step: CallStep, t: System, id: string)
    requires GateOk(c, s) && TakeCall(c, s, step) == Some(t) && step.id != id && id in t.holds.pending
    ensures KeptPending(s, t, id)
  {
    OthersStay(c, s, step, t, id);
    if Early(step) {
      if !step.RegisterEvent? { EarlyAddsNoEvent(c, s, step, t); }
    } else {
      LateAddsNoEvent(c, s, step, t);
    }
  }

  lemma {:induction false} BeginsWithoutEvent(c: Config, s: System, id: string, q: Request, now: real, t: System)
    requires GateOk(c, s) && DoBeginCall(c, s, id, q, now) == Some(t)
    ensures id !in t.holds.pending
  {
    assert s.holds.pending <= s.holds.flags.Keys && (id in s.holds.flags ==> id in s.actions);
  }

  lemma {:induction false} OwnStepKeepsCall(c: Config, s: System, step: CallStep, t: System)
    requires CallContext(c, s, step.id) && TakeCall(c, s, step) == Some(t) && !step.BeginCall?
    ensures step.id in t.calls
  {
    if !step.CaptureImage? {
      if Early(step) { EarlyStepMoves(c, s, step, t); } else { LateStepMoves(c, s, step, t); }
    }
  }

  lemma {:induction false} CallPending(c: Config, s: System, step: CallStep, t: System, id: string)
    requires GateOk(c, s) && GateOk(c, t) && TakeCall(c, s, step) == Some(t) && id in t.holds.pending
    ensures StaysPending(s, t, id)
  {
    if step.id != id {
      OtherPending(c, s, step, t, id);
    } else if step.BeginCall? {
      BeginsWithoutEvent(c, s, id, step.request, step.now, t);
    } else {
      StepHasContext(c, s, step);
      OwnStepKeepsCall(c, s, step, t);
      OwnPending(c, s, step, t);
    }
  }

  lemma {:induction false} DecisionPending(c: Config, s: System, step: DecisionStep, t: System, id: string)
    requires GateOk(c, s) && TakeDecision(s, step) == Some(t) && id in t.holds.pending
    ensures KeptPending(s, t, id)
  {
    DecisionStepMoves(c, s, step, t);
  }

  lemma {:induction false} UndoPending(s: System, step: UndoStep, t: System, id: string)
    requires TakeUndo(s, step) == Some(t) && id in t.holds.pending
    ensures KeptPending(s, t, id)
  {
    if !step.UndoRecord? { UndoStepFrame(s, step, t); }
  }

  lemma {:induction false} SystemPending(c: Config, s: System, step: SystemStep, t: System, id: string)
    requires GateOk(c, s) && TakeSystem(s, step) == Some(t) && id in t.holds.pending
    ensures KeptPending(s, t, id)
  {
    if !step.Crash? { SystemStepMoves(c, s, step, t); }
  }

  lemma {:induction false} NextPending(c: Config, s: System, t: System, id: string)
    requires GateOk(c, s) && GateOk(c, t) && Next(c, s, t) && id in t.holds.pending
    ensures StaysPending(s, t, id)
  {
    var step :| Take(c, s, step) == Some(t);
    match step
    case OfCall(m) => CallPending(c, s, m, t, id);
    case OfDecision(m) => DecisionPending(c, s, m, t, id);
    case OfUndo(m) => UndoPending(s, m, t, id);
    case OfSystem(m) => SystemPending(c, s, m, t, id);
  }

  ghost predicate DropsEventAt(run: seq<System>, k: nat, id: string) {
    k + 1 < |run| && DropsEvent(run[k], run[k + 1], id)
  }

  lemma {:induction false} RunStepPending(c: Config, run: seq<System>, k: nat, id: string)
    requires IsRun(c, run) && k + 1 < |run| && id in run[k + 1].holds.pending
    ensures StaysPending(run[k], run[k + 1], id)
  {
    RunKeeps(c, run, k);
    RunKeeps(c, run, k + 1);
    RunSteps(c, run, k);
    NextPending(c, run[k], run[k + 1], id);
  }

  /** In every run, an id in the map of pending events belongs to a call that waits or is going to,
      except exactly where that call was cancelled after its event was made and before its wait
      began: inside the wait every way out takes the event away. */
  lemma {:induction false} PendingEventsAreOwned(c: Config, run: seq<System>, i: nat, id: string)
    requires IsRun(c, run) && i < |run| && id in run[i].holds.pending
    ensures id in run[i].calls
    ensures Owned(run[i], id) || (IsOver(run[i], id) && exists k :: 0 <= k < i && DropsEventAt(run, k, id))
  {
    RunStepPending(c, run, i - 1, id);
    if !Owned(run[i], id) {
      if KeptPending(run[i - 1], run[i], id) {
        PendingEventsAreOwned(c, run, i - 1, id);
      } else {
        assert DropsEventAt(run, i - 1, id);
      }
    }
  }
}
