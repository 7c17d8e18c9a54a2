/** Where a row's outcome comes from: the request, the timeout or the restart that decided it. */
module LifecycleCauses {
  import opened Records
  import opened Tables
  import opened Holds
  import opened Lifecycle
  import opened LifecycleInvariant
  import opened LifecycleTheorems

  // ---- Steps that decide a row ------------------------------------------------

  /** The step is the UPDATE of a decision on the action, at a time, on a PENDING row. */
  ghost predicate Decides(s: System, t: System, id: string, r: nat, now: real) {
    && r in s.decisions && s.decisions[r].id == id && DoDecideUpdate(s, r, now) == Some(t)
    && id in s.actions && s.actions[id].status == PENDING
  }

  /** What a decision makes of its row: approved or denied as it says, by whom it says. */
  predicate SaysOf(d: Decision, now: real, row: Action) {
    && row.status == (if d.approved then APPROVED else DENIED)
    && row.decidedBy == Some(d.decidedBy) && row.resolvedAt == Some(now)
  }

  /** The hold timeout of the call, or the sweep at a restart. */
  ghost predicate Expires(s: System, t: System, id: string, now: real) {
    && (DoExpire(s, id, now) == Some(t)
        || (DoRecoverRow(s) == Some(t) && s.mode.todo[0] == id && s.mode.at == now))
    && id in s.actions && s.actions[id].status == PENDING
  }

  /** The step gave the row its outcome. */
  ghost predicate Causes(c: Config, s: System, t: System, id: string) {
    id in t.actions &&
      match t.actions[id].status
      case PENDING => false
      case AUTO_ALLOWED => DoInsertRow(s, id) == Some(t) && t.actions[id].riskLevel !in c.heldRiskLevels
      case APPROVED => exists r, now :: Decides(s, t, id, r, now) && SaysOf(s.decisions[r], now, t.actions[id])
      case DENIED => exists r, now :: Decides(s, t, id, r, now) && SaysOf(s.decisions[r], now, t.actions[id])
      case EXPIRED => exists now :: Expires(s, t, id, now) && t.actions[id].decidedBy == None
                                  && t.actions[id].resolvedAt == Some(now)
  }

  /** The row is decided by this step. */
  ghost predicate Settles(s: System, t: System, id: string) {
    Terminal(t.actions, id) && !Terminal(s.actions, id) && t.actions[id].ruleId != UNDO_RULE
  }

  lemma {:induction false} InsertSettles(c: Config, s: System, id: string, t: System, x: string)
    requires GateOk(c, s) && DoInsertRow(s, id) == Some(t) && Settles(s, t, x)
    ensures x == id && t.actions[id].status == AUTO_ALLOWED && t.actions[id].riskLevel !in c.heldRiskLevels
  {
    assert CallOk(c, s.actions, s.holds, id, s.calls[id]);
  }

  lemma {:induction false} EarlyStepsAreQuiet(c: Config, s: System, step: CallStep, t: System)
    requires TakeCall(c, s, step) == Some(t) && Early(step)
    ensures t.actions == s.actions
  {
  }

  lemma {:induction false} LateStepsAreQuiet(c: Config, s: System, step: CallStep, t: System)
    requires TakeCall(c, s, step) == Some(t) && !Early(step) && !step.InsertRow? && !step.Expire?
    ensures t.actions == s.actions
  {
  }

  lemma {:induction false} CallSettles(c: Config, s: System, step: CallStep, t: System, x: string)
    requires GateOk(c, s) && TakeCall(c, s, step) == Some(t) && Settles(s, t, x)
    ensures Causes(c, s, t, x)
  {
    if step.InsertRow? {
      InsertSettles(c, s, step.id, t, x);
    } else if step.Expire? {
      assert Expires(s, t, x, step.now);
    } else {
      if Early(step) { EarlyStepsAreQuiet(c, s, step, t); } else { LateStepsAreQuiet(c, s, step, t); }
    }
  }

  lemma {:induction false} QuietDecisionStep(s: System, step: DecisionStep, t: System)
    requires TakeDecision(s, step) == Some(t) && !step.DecideUpdate?
    ensures t.actions == s.actions
  {
  }

  lemma {:induction false} DecisionSettles(c: Config, s: System, step: DecisionStep, t: System, x: string)
    requires TakeDecision(s, step) == Some(t) && Settles(s, t, x)
    ensures Causes(c, s, t, x)
  {
    if step.DecideUpdate? {
      assert Decides(s, t, x, step.r, step.now);
      assert SaysOf(s.decisions[step.r], step.now, t.actions[x]);
    } else {
      QuietDecisionStep(s, step, t);
    }
  }

  lemma {:induction false} UndoSettlesNothing(c: Config, s: System, step: UndoStep, t: System, x: string)
    requires GateOk(c, s) && RecordsOk(s) && TakeUndo(s, step) == Some(t)
    ensures !Settles(s, t, x)
  {
    if step.UndoRecord? {
    } else {
      UndoStepFrame(s, step, t);
    }
  }

  lemma {:induction false} SystemSettles(c: Config, s: System, step: SystemStep, t: System, x: string)
    requires TakeSystem(s, step) == Some(t) && Settles(s, t, x)
    ensures Causes(c, s, t, x)
  {
    if step.RecoverRow? {
      assert Expires(s, t, x, s.mode.at);
    }
  }

  lemma {:induction false} StepSettles(c: Config, s: System, step: Step, t: System, x: string)
    requires Inv(c, s) && Take(c, s, step) == Some(t) && Settles(s, t, x)
    ensures Causes(c, s, t, x)
  {
    match step
    case OfCall(m) => CallSettles(c, s, m, t, x);
    case OfDecision(m) => DecisionSettles(c, s, m, t, x);
    case OfUndo(m) => UndoSettlesNothing(c, s, m, t, x);
    case OfSystem(m) => SystemSettles(c, s, m, t, x);
  }

  lemma {:induction false} NextSettles(c: Config, s: System, t: System, x: string)
    requires Inv(c, s) && Next(c, s, t) && Settles(s, t, x)
    ensures Causes(c, s, t, x)
  {
    var step :| Take(c, s, step) == Some(t);
    StepSettles(c, s, step, t, x);
  }

  // ---- Outcomes over runs -----------------------------------------------------

  ghost predicate CausedAt(c: Config, run: seq<System>, k: nat, id: string) {
    k + 1 < |run| && Causes(c, run[k], run[k + 1], id)
  }

  lemma {:induction false} RunStepSettles(c: Config, run: seq<System>, k: nat, id: string)
    requires IsRun(c, run) && k + 1 < |run| && Settles(run[k], run[k + 1], id)
    ensures CausedAt(c, run, k, id)
  {
    RunKeeps(c, run, k);
    RunSteps(c, run, k);
    NextSettles(c, run[k], run[k + 1], id);
  }

  lemma {:induction false} SettledBefore(c: Config, run: seq<System>, k: nat, id: string)
    requires IsRun(c, run) && k + 1 < |run| && Terminal(run[k + 1].actions, id)
    requires run[k + 1].actions[id].ruleId != UNDO_RULE && !Settles(run[k], run[k + 1], id)
    ensures Terminal(run[k].actions, id) && run[k].actions[id].ruleId != UNDO_RULE
  {
    RunStepHistory(c, run, k);
  }

  /** Every outcome in every run goes back to an earlier step that gave it: AUTO_ALLOWED to the
      insert of a row whose level is not held, APPROVED and DENIED to the UPDATE of a decision
      that says so, EXPIRED to the timeout or the sweep. The row still says what it said then. */
  lemma {:induction false} OutcomeHasCause(c: Config, run: seq<System>, i: nat, id: string) returns (k: nat)
    requires IsRun(c, run) && i < |run| && Terminal(run[i].actions, id) && run[i].actions[id].ruleId != UNDO_RULE
    ensures k < i && CausedAt(c, run, k, id)
    ensures id in run[k + 1].actions && OutcomeOf(run[k + 1].actions[id]) == OutcomeOf(run[i].actions[id])
  {
    if Settles(run[i - 1], run[i], id) {
      k := i - 1;
      RunStepSettles(c, run, k, id);
    } else {
      SettledBefore(c, run, i - 1, id);
      k := OutcomeHasCause(c, run, i - 1, id);
      OutcomeIsFinal(c, run, i - 1, i, id);
    }
  }

  // ---- Requests ---------------------------------------------------------------

  /** The step is the arrival of a request to approve or deny the action. */
  ghost predicate AskedAt(run: seq<System>, m: nat, r: nat, id: string, approved: bool, who: string) {
    m + 1 < |run| && DoBeginDecide(run[m], r, id, approved, who) == Some(run[m + 1])
  }

  predicate SameAsk(d: Decision, e: Decision) {
    d.id == e.id && d.approved == e.approved && d.decidedBy == e.decidedBy
  }

  lemma {:induction false} DecisionKeepsAsk(s: System, step: DecisionStep, t: System, r: nat)
    requires TakeDecision(s, step) == Some(t) && r in t.decisions && !(step.BeginDecide? && step.r == r)
    ensures r in s.decisions && SameAsk(s.decisions[r], t.decisions[r])
  {
  }

  lemma {:induction false} CallsLeaveDecisions(c: Config, s: System, step: CallStep, t: System)
    requires GateOk(c, s) && TakeCall(c, s, step) == Some(t)
    ensures t.decisions == s.decisions
  {
    if !step.BeginCall? && !step.CaptureImage? {
      StepHasContext(c, s, step);
      if Early(step) { EarlyStepMoves(c, s, step, t); } else { LateStepMoves(c, s, step, t); }
    }
  }

  lemma {:induction false} UndosLeaveDecisions(s: System, step: UndoStep, t: System)
    requires TakeUndo(s, step) == Some(t)
    ensures t.decisions == s.decisions
  {
    if !step.UndoRecord? { UndoStepFrame(s, step, t); }
  }

  lemma {:induction false} AskFrom(c: Config, s: System, t: System, r: nat)
    requires Inv(c, s) && Next(c, s, t) && r in t.decisions
    ensures (r in s.decisions && SameAsk(s.decisions[r], t.decisions[r]))
         || DoBeginDecide(s, r, t.decisions[r].id, t.decisions[r].approved, t.decisions[r].decidedBy) == Some(t)
  {
    var step :| Take(c, s, step) == Some(t);
    match step
    case OfCall(m) => CallsLeaveDecisions(c, s, m, t);
    case OfDecision(m) =>
      if !(m.BeginDecide? && m.r == r) { DecisionKeepsAsk(s, m, t, r); }
    case OfUndo(m) => UndosLeaveDecisions(s, m, t);
    case OfSystem(m) => SystemStepMoves(c, s, m, t);
  }

  /** Every decision in flight goes back to a request for just that. */
  lemma {:induction false} DecisionWasAsked(c: Config, run: seq<System>, k: nat, r: nat) returns (m: nat)
    requires IsRun(c, run) && k < |run| && r in run[k].decisions
    ensures m < k && AskedAt(run, m, r, run[k].decisions[r].id, run[k].decisions[r].approved,
      run[k].decisions[r].decidedBy)
  {
    RunKeeps(c, run, k - 1);
    RunSteps(c, run, k - 1);
    AskFrom(c, run[k - 1], run[k], r);
    if r in run[k - 1].decisions && SameAsk(run[k - 1].decisions[r], run[k].decisions[r]) {
      m := DecisionWasAsked(c, run, k - 1, r);
    } else {
      m := k - 1;
    }
  }

  ghost predicate DecidesAt(run: seq<System>, k: nat, id: string, r: nat, now: real) {
    k + 1 < |run| && Decides(run[k], run[k + 1], id, r, now)
  }

  /** A request of the decider for that answer came in at step m, and its UPDATE resolved the row
      at step k. */
  ghost predicate ResolvedOnRequest(run: seq<System>, m: nat, k: nat, id: string, approved: bool, who: string) {
    m < k && exists r, now :: AskedAt(run, m, r, id, approved, who) && DecidesAt(run, k, id, r, now)
  }

  /** In every run an APPROVED row, if it is no compensation row, was resolved on a request to
      approve it, and a DENIED one on a request to deny it, by the decider it names. */
  lemma {:induction false} DecidedOnRequest(c: Config, run: seq<System>, i: nat, id: string) returns (m: nat, k: nat)
    requires IsRun(c, run) && i < |run| && id in run[i].actions && run[i].actions[id].ruleId != UNDO_RULE
    requires run[i].actions[id].status == APPROVED || run[i].actions[id].status == DENIED
    ensures m < k < i && run[i].actions[id].decidedBy.Some?
    ensures ResolvedOnRequest(run, m, k, id, run[i].actions[id].status == APPROVED, run[i].actions[id].decidedBy.value)
  {
    k := OutcomeHasCause(c, run, i, id);
    var r, now :| Decides(run[k], run[k + 1], id, r, now) && SaysOf(run[k].decisions[r], now, run[k + 1].actions[id]);
    m := DecisionWasAsked(c, run, k, r);
    assert DecidesAt(run, k, id, r, now);
  }

  lemma {:induction false} ForwardedIsNoUndo(c: Config, run: seq<System>, i: nat, id: string)
    requires IsRun(c, run) && i < |run| && Forwarded(id) in run[i].log
    ensures id in run[i].actions && run[i].actions[id].ruleId != UNDO_RULE
  {
    RunKeeps(c, run, i);
    var m :| 0 <= m < |run[i].log| && run[i].log[m] == Forwarded(id);
    assert EventOk(run[i].actions, run[i].journal, run[i].log[m]);
  }

  /** So a forwarded call of a held level was asked for: a request to approve it came in and
      resolved its PENDING row before the forward. One of another level was auto-allowed. */
  lemma {:induction false} ForwardedWasApproved(c: Config, run: seq<System>, i: nat, id: string)
      returns (m: nat, k: nat)
    requires IsRun(c, run) && i < |run| && Forwarded(id) in run[i].log
    ensures id in run[i].actions && Executable(run[i].actions[id].status)
    ensures run[i].actions[id].riskLevel in c.heldRiskLevels ==>
      && m < k < i && run[i].actions[id].decidedBy.Some?
      && ResolvedOnRequest(run, m, k, id, true, run[i].actions[id].decidedBy.value)
    ensures run[i].actions[id].riskLevel !in c.heldRiskLevels ==> run[i].actions[id].status == AUTO_ALLOWED
  {
    ForwardedOnlyIfCleared(c, run, i, id);
    ForwardedIsNoUndo(c, run, i, id);
    m, k := 0, 0;
    if run[i].actions[id].riskLevel in c.heldRiskLevels {
      m, k := DecidedOnRequest(c, run, i, id);
    }
  }
}
