/** What undo requests and restarts come to: the row a compensation leaves and what it tells, and
    that both go through when they are left alone. */
module LifecycleCompletion {
  import opened Records
  import opened Literals
  import opened Tables
  import opened Holds
  import opened Compensation
  import opened Lifecycle
  import opened LifecycleInvariant
  import opened LifecycleTheorems
  import opened LifecycleProgress
  import StoreModule

  // ---- Compensation rows ------------------------------------------------------

  /** The row is the record of undoing the entry's action, in the trace and the name of the agent of
      that action, and all compensating calls of the journaled image have been made. */
  ghost predicate RowTells(s: System, entry: string, row: string) {
    && UndoneBy(s.journal, entry, row) && entry in s.actions && row in s.actions
    && var undone := s.actions[entry]; var record := s.actions[row];
       var plan := PlanOf(s.journal[entry].kind, s.journal[entry].payload);
       && record.traceId == undone.traceId && record.agentId == undone.agentId
       && record.tool == "undo:" + undone.tool && record.resourceName == undone.resourceName
       && record.riskLevel == undone.riskLevel && record.reversibility == IRREVERSIBLE
       && record.argsSummary == Some("{\"undo_of\": \"" + entry + "\", \"calls\": " + PrintNat(|plan|) + "}")
       && CallsFor(s.log, entry) == plan
  }

  /** The request has read the row of the action it undoes, and knows how many calls that takes. */
  ghost predicate UndoKnows(s: System, undo: Undo) {
    match undo.phase
    case FetchingJournal(row) => undo.id in s.actions && SameRequest(row, s.actions[undo.id])
    case Marking(row, _, _) => undo.id in s.actions && SameRequest(row, s.actions[undo.id])
    case Compensating(row, _, total, _) =>
      && undo.id in s.actions && SameRequest(row, s.actions[undo.id])
      && undo.id in s.journal && total == |PlanOf(s.journal[undo.id].kind, s.journal[undo.id].payload)|
    case _ => true
  }

  ghost predicate HasTeller(s: System, row: string) {
    exists entry :: RowTells(s, entry, row)
  }

  ghost predicate Telling(s: System) {
    && (forall u :: u in s.undos ==> UndoKnows(s, s.undos[u]))
    && (forall row :: row in s.actions && s.actions[row].ruleId == UNDO_RULE ==> HasTeller(s, row))
  }

  lemma {:induction false} CallsForPrefix(log: seq<LogEvent>, longer: seq<LogEvent>, id: string)
    requires log <= longer
    ensures CallsFor(log, id) <= CallsFor(longer, id)
    decreases |longer|
  {
    if |log| < |longer| {
      CallsForPrefix(log, longer[..|longer| - 1], id);
    } else {
      assert log == longer;
    }
  }

  lemma {:induction false} StillTells(s: System, t: System, entry: string, row: string)
    requires RecordsOk(s) && RecordsOk(t) && History(s, t) && RowTells(s, entry, row)
    ensures RowTells(t, entry, row)
  {
    assert EntryOk(s.actions, s.log, s.issued, entry, s.journal[entry]);
    assert EntryOk(t.actions, t.log, t.issued, entry, t.journal[entry]);
    CallsForPrefix(s.log, t.log, entry);
  }

  lemma {:induction false} StillKnows(s: System, t: System, undo: Undo)
    requires History(s, t) && UndoKnows(s, undo)
    ensures UndoKnows(t, undo)
  {
  }

  lemma {:induction false} ReadKnows(s: System, u: nat, t: System)
    requires DoUndoRead(s, u) == Some(t)
    ensures UndoKnows(t, t.undos[u])
  {
  }

  lemma {:induction false} MarkKnows(s: System, u: nat, now: real, t: System)
    requires UndosOk(s) && DoUndoMark(s, u, now) == Some(t) && UndoKnows(s, s.undos[u])
    ensures UndoKnows(t, t.undos[u])
  {
    assert UndoOk(s, s.undos[u]);
  }

  lemma {:induction false} CallKnows(s: System, u: nat, ok: bool, t: System)
    requires DoUndoCall(s, u, ok) == Some(t) && UndoKnows(s, s.undos[u])
    ensures UndoKnows(t, t.undos[u])
  {
  }

  lemma {:induction false} OtherUndosStay(s: System, step: UndoStep, t: System, u: nat)
    requires TakeUndo(s, step) == Some(t) && u in t.undos && u != step.u
    ensures u in s.undos && t.undos[u] == s.undos[u]
  {
  }

  lemma {:induction false} UndoStepKnows(s: System, step: UndoStep, t: System)
    requires UndosOk(s) && TakeUndo(s, step) == Some(t)
    requires step.u in s.undos ==> UndoKnows(s, s.undos[step.u])
    ensures step.u in t.undos && UndoKnows(t, t.undos[step.u])
  {
    match step
    case UndoRead(u) => ReadKnows(s, u, t);
    case UndoMark(u, now) => MarkKnows(s, u, now, t);
    case UndoCall(u, ok) => CallKnows(s, u, ok, t);
    case _ =>
  }

  lemma {:induction false} RecordTells(c: Config, s: System, u: nat, now: real, t: System)
    requires RowsOk(c, s.actions) && UndosOk(s) && DoUndoRecord(s, u, now) == Some(t) && UndoKnows(s, s.undos[u])
    ensures RowTells(t, s.undos[u].id, s.undos[u].phase.undoId)
    ensures t.actions == s.actions[s.undos[u].phase.undoId := t.actions[s.undos[u].phase.undoId]]
  {
    RecordingRecords(c, s, t, u, now);
    assert UndoOk(s, s.undos[u]);
  }

  lemma {:induction false} CallAddsNoRecord(c: Config, s: System, step: CallStep, t: System, row: string)
    requires GateOk(c, s) && TakeCall(c, s, step) == Some(t) && row in t.actions && t.actions[row].ruleId == UNDO_RULE
    ensures row in s.actions
  {
    if step.BeginCall? || step.CaptureImage? {
      assert t.actions == s.actions;
    } else {
      StepHasContext(c, s, step);
      if Early(step) { EarlyStepMoves(c, s, step, t); } else { LateStepMoves(c, s, step, t); }
    }
  }

  lemma {:induction false} OtherStepsAddNoRecord(c: Config, s: System, step: Step, t: System, row: string)
    requires GateOk(c, s) && Take(c, s, step) == Some(t) && !(step.OfUndo? && step.undo.UndoRecord?)
    requires row in t.actions && t.actions[row].ruleId == UNDO_RULE
    ensures row in s.actions
  {
    match step
    case OfCall(m) => CallAddsNoRecord(c, s, m, t, row);
    case OfDecision(m) => DecisionStepMoves(c, s, m, t);
    case OfUndo(m) => UndoStepFrame(s, m, t);
    case OfSystem(m) => SystemStepMoves(c, s, m, t);
  }

  lemma {:induction false} OldRowStillTold(s: System, t: System, row: string)
    requires RecordsOk(s) && RecordsOk(t) && History(s, t) && row in s.actions
    requires s.actions[row].ruleId == UNDO_RULE ==> HasTeller(s, row)
    requires row in t.actions && t.actions[row].ruleId == UNDO_RULE
    ensures HasTeller(t, row)
  {
    var entry :| RowTells(s, entry, row);
    StillTells(s, t, entry, row);
  }

  lemma {:induction false} RowsStillTold(c: Config, s: System, step: Step, t: System, row: string)
    requires Inv(c, s) && Inv(c, t) && Telling(s) && Take(c, s, step) == Some(t)
    requires row in t.actions && t.actions[row].ruleId == UNDO_RULE
    ensures HasTeller(t, row)
  {
    if row in s.actions {
      StepHistory(c, s, step, t);
      OldRowStillTold(s, t, row);
    } else if step.OfUndo? && step.undo.UndoRecord? {
      RecordTells(c, s, step.undo.u, step.undo.now, t);
    } else {
      OtherStepsAddNoRecord(c, s, step, t, row);
    }
  }

  lemma {:induction false} UndosLeftAlone(c: Config, s: System, step: Step, t: System)
    requires GateOk(c, s) && Take(c, s, step) == Some(t) && !step.OfUndo?
    ensures forall u :: u in t.undos ==> u in s.undos && t.undos[u] == s.undos[u]
  {
    match step
    case OfCall(m) =>
      if !m.BeginCall? && !m.CaptureImage? {
        StepHasContext(c, s, m);
        if Early(m) { EarlyStepMoves(c, s, m, t); } else { LateStepMoves(c, s, m, t); }
      }
    case OfDecision(m) => DecisionStepMoves(c, s, m, t);
    case OfSystem(m) => SystemStepMoves(c, s, m, t);
  }

  lemma {:induction false} UndosStillKnow(c: Config, s: System, step: Step, t: System, u: nat)
    requires Inv(c, s) && Telling(s) && Take(c, s, step) == Some(t) && u in t.undos
    ensures UndoKnows(t, t.undos[u])
  {
    StepHistory(c, s, step, t);
    if step.OfUndo? {
      if step.undo.u == u {
        UndoStepKnows(s, step.undo, t);
      } else {
        OtherUndosStay(s, step.undo, t, u);
      }
    } else {
      UndosLeftAlone(c, s, step, t);
    }
    if !(step.OfUndo? && step.undo.u == u) {
      StillKnows(s, t, t.undos[u]);
    }
  }

  lemma {:induction false} NextTells(c: Config, s: System, t: System)
    requires Inv(c, s) && Inv(c, t) && Telling(s) && Next(c, s, t)
    ensures Telling(t)
  {
    var step :| Take(c, s, step) == Some(t);
    forall u | u in t.undos ensures UndoKnows(t, t.undos[u]) {
      UndosStillKnow(c, s, step, t, u);
    }
    forall row | row in t.actions && t.actions[row].ruleId == UNDO_RULE ensures HasTeller(t, row) {
      RowsStillTold(c, s, step, t, row);
    }
  }

  lemma {:induction false} RunStepTells(c: Config, run: seq<System>, k: nat)
    requires IsRun(c, run) && k + 1 < |run| && Telling(run[k])
    ensures Telling(run[k + 1])
  {
    RunKeeps(c, run, k);
    RunKeeps(c, run, k + 1);
    RunSteps(c, run, k);
    NextTells(c, run[k], run[k + 1]);
  }

  lemma {:induction false} RunTells(c: Config, run: seq<System>, i: nat)
    requires IsRun(c, run) && i < |run|
    ensures Telling(run[i])
  {
    if i > 0 {
      RunTells(c, run, i - 1);
      RunStepTells(c, run, i - 1);
    }
  }

  /** In every run a compensation row tells which action it undid, under that action's trace, agent,
      tool and resource, and it is there only when the whole plan has been made. */
  lemma {:induction false} UndoRowTells(c: Config, run: seq<System>, i: nat, row: string) returns (entry: string)
    requires IsRun(c, run) && i < |run| && row in run[i].actions && run[i].actions[row].ruleId == UNDO_RULE
    ensures RowTells(run[i], entry, row)
  {
    RunTells(c, run, i);
    assert HasTeller(run[i], row);
    entry :| RowTells(run[i], entry, row);
  }

  // ---- Undo requests that are left alone --------------------------------------

  ghost predicate CompensatingAt(s: System, u: nat, undoId: string) {
    UndoLive(s, u) && s.undos[u].phase.Compensating? && s.undos[u].phase.undoId == undoId
  }

  lemma {:induction false} RecordsAndTells(c: Config, s: System, u: nat, undoId: string, now: real)
      returns (told: System)
    requires UndosOk(s) && CompensatingAt(s, u, undoId) && s.undos[u].phase.rest == []
    ensures TakeTwo(c, s, OfUndo(UndoRecord(u, now)), OfUndo(UndoAnnounce(u))) == Some(told)
    ensures undoId in told.actions && told.actions[undoId].ruleId == UNDO_RULE
    ensures UndoneAnnounced(undoId) in told.log
  {
    assert UndoOk(s, s.undos[u]);
    var recorded := DoUndoRecord(s, u, now).value;
    told := DoUndoAnnounce(recorded, u).value;
    assert told.log[|s.log|] == UndoneAnnounced(undoId);
  }

  lemma {:induction false} UndosOfRun(c: Config, run: seq<System>)
    requires IsRun(c, run)
    ensures UndosOk(Last(run))
  {
    RunKeeps(c, run, |run| - 1);
  }

  lemma {:induction false} LastCallMade(c: Config, run: seq<System>, u: nat, undoId: string, now: real)
      returns (longer: seq<System>)
    requires IsRun(c, run) && CompensatingAt(Last(run), u, undoId) && Last(run).undos[u].phase.rest == []
    ensures IsRun(c, longer) && run <= longer
    ensures undoId in Last(longer).actions && Last(longer).actions[undoId].ruleId == UNDO_RULE
    ensures UndoneAnnounced(undoId) in Last(longer).log
  {
    UndosOfRun(c, run);
    var told := RecordsAndTells(c, Last(run), u, undoId, now);
    longer := RunOnTwo(c, run, OfUndo(UndoRecord(u, now)), OfUndo(UndoAnnounce(u)), told);
  }

  lemma {:induction false} OneCallMade(c: Config, run: seq<System>, u: nat, undoId: string) returns (next: seq<System>)
    requires IsRun(c, run) && CompensatingAt(Last(run), u, undoId) && Last(run).undos[u].phase.rest != []
    ensures IsRun(c, next) && run <= next && CompensatingAt(Last(next), u, undoId)
    ensures Last(next).undos[u].phase.rest == Last(run).undos[u].phase.rest[1..]
  {
    RunOn(c, run, OfUndo(UndoCall(u, true)));
    next := run + [DoUndoCall(Last(run), u, true).value];
  }

  /** From any state of any run, an undo request that has won its entry and is left alone, no call of
      it failing, ends with its row in the table and announced. */
  lemma {:induction false} UndoLeftAlone(c: Config, run: seq<System>, u: nat, undoId: string, now: real)
      returns (longer: seq<System>)
    requires IsRun(c, run) && CompensatingAt(Last(run), u, undoId)
    ensures IsRun(c, longer) && run <= longer
    ensures undoId in Last(longer).actions && Last(longer).actions[undoId].ruleId == UNDO_RULE
    ensures UndoneAnnounced(undoId) in Last(longer).log
    decreases |Last(run).undos[u].phase.rest|
  {
    if Last(run).undos[u].phase.rest == [] {
      longer := LastCallMade(c, run, u, undoId, now);
    } else {
      var next := OneCallMade(c, run, u, undoId);
      longer := UndoLeftAlone(c, next, u, undoId, now);
    }
  }

  lemma {:induction false} UndoSetsOut(c: Config, run: seq<System>, u: nat, id: string, who: string, undoId: string,
      now: real) returns (longer: seq<System>)
    requires IsRun(c, run) && Last(run).mode.Serving? && u !in Last(run).undos && undoId !in Last(run).issued
    requires Undoable(Last(run).actions, Last(run).journal, id)
    ensures IsRun(c, longer) && run <= longer && CompensatingAt(Last(longer), u, undoId)
    ensures UndoneBy(Last(longer).journal, id, undoId)
  {
    var s := Last(run);
    UndoableMeansUndoStarts(c, run, |run| - 1, u, id, who, undoId, now);
    var begun := DoBeginUndo(s, u, id, who).value;
    var read := DoUndoRead(begun, u).value;
    var fetched := DoUndoFetch(read, u, undoId).value;
    var marked := DoUndoMark(fetched, u, now).value;
    longer := RunOnTwo(c, run, OfUndo(BeginUndo(u, id, who)), OfUndo(UndoRead(u)), read);
    longer := RunOnTwo(c, longer, OfUndo(UndoFetch(u, undoId)), OfUndo(UndoMark(u, now)), marked);
  }

  lemma {:induction false} UndoneByStays(c: Config, run: seq<System>, i: nat, id: string, undoId: string)
    requires IsRun(c, run) && i < |run| && UndoneBy(run[i].journal, id, undoId)
    ensures UndoneBy(Last(run).journal, id, undoId)
  {
    RunKeeps(c, run, i);
    RunHistory(c, run, i, |run| - 1);
    assert EntryOk(run[i].actions, run[i].log, run[i].issued, id, run[i].journal[id]);
  }

  /** So whenever the listing says that an action is undoable, an undo of it can go through: it ends
      with its row, which tells of that action and of the whole plan. */
  lemma {:induction false} UndoableIsUndone(c: Config, run: seq<System>, u: nat, id: string, who: string,
      undoId: string, now: real) returns (longer: seq<System>)
    requires IsRun(c, run) && Last(run).mode.Serving? && u !in Last(run).undos && undoId !in Last(run).issued
    requires Undoable(Last(run).actions, Last(run).journal, id)
    ensures IsRun(c, longer) && run <= longer && RowTells(Last(longer), id, undoId)
  {
    var started := UndoSetsOut(c, run, u, id, who, undoId, now);
    longer := UndoLeftAlone(c, started, u, undoId, now);
    var entry := UndoRowTells(c, longer, |longer| - 1, undoId);
    UndoneByStays(c, longer, |started| - 1, id, undoId);
    UndoRowHasOneEntry(c, longer, |longer| - 1, undoId);
  }

  // ---- Restarts that are left alone -------------------------------------------

  lemma {:induction false} ListedToo(rows: seq<Action>, t: ActionTable, status: Option<Status>, row: Action)
      returns (grown: seq<Action>)
    requires Lists(rows, t, status) && row.actionId !in t && Selected(row, status)
    ensures Lists(grown, t[row.actionId := row], status)
  {
    var at := 0;
    while at < |rows| && rows[at].requestedAt >= row.requestedAt
      invariant 0 <= at <= |rows|
      invariant forall i :: 0 <= i < at ==> rows[i].requestedAt >= row.requestedAt
    {
      at := at + 1;
    }
    StoreModule.InsertedAt(rows, t, status, row, at);
    grown := StoreModule.Grown(rows, row, at);
  }

  /** A listing of the rows with a status always exists. */
  lemma {:induction false} ListingExists(t: ActionTable, ids: set<string>, status: Option<Status>)
      returns (rows: seq<Action>)
    requires Indexed(t) && ids <= t.Keys
    ensures Lists(rows, map id | id in ids :: t[id], status)
    decreases |ids|
  {
    if ids == {} {
      rows := [];
    } else {
      var id :| id in ids;
      var rest: ActionTable := map x | x in ids - {id} :: t[x];
      rows := ListingExists(t, ids - {id}, status);
      var row := t[id];
      assert (map x | x in ids :: t[x]) == rest[id := row];
      if Selected(row, status) {
        rows := ListedToo(rows, rest, status, row);
      } else {
        StoreModule.SkippedAt(rows, rest, status, row);
      }
    }
  }

  ghost predicate SweepingFrom(run: seq<System>, a: nat) {
    a < |run| && forall k :: a <= k < |run| - 1 ==> run[k].mode.Recovering?
  }

  lemma {:induction false} RowSwept(c: Config, run: seq<System>) returns (next: seq<System>)
    requires IsRun(c, run) && Last(run).mode.Recovering? && Last(run).mode.todo != [] && !Last(run).mode.updated
    ensures IsRun(c, next) && |next| == |run| + 1 && run <= next
    ensures Last(next).mode == Last(run).mode.(updated := true)
  {
    RunOn(c, run, OfSystem(RecoverRow));
    next := run + [DoRecoverRow(Last(run)).value];
  }

  lemma {:induction false} RowAnnounced(c: Config, run: seq<System>) returns (next: seq<System>)
    requires IsRun(c, run) && Last(run).mode.Recovering? && Last(run).mode.todo != [] && Last(run).mode.updated
    ensures IsRun(c, next) && |next| == |run| + 1 && run <= next
    ensures Last(next).mode == Last(run).mode.(todo := Last(run).mode.todo[1..], updated := false)
    ensures var id := Last(run).mode.todo[0];
      Terminal(Last(run).actions, id) && ResolvedAnnounced(id, OutcomeOf(Last(run).actions[id])) in Last(next).log
  {
    RunKeeps(c, run, |run| - 1);
    var s := Last(run);
    RunOn(c, run, OfSystem(RecoverAnnounce));
    var t := DoRecoverAnnounce(s).value;
    next := run + [t];
    assert t.log[|s.log|] == ResolvedAnnounced(s.mode.todo[0], OutcomeOf(s.actions[s.mode.todo[0]]));
  }

  /** The rows of the ids are decided and have been announced as they are. */
  ghost predicate ToldAll(s: System, ids: seq<string>) {
    forall i :: 0 <= i < |ids| ==>
      Terminal(s.actions, ids[i]) && ResolvedAnnounced(ids[i], OutcomeOf(s.actions[ids[i]])) in s.log
  }

  lemma {:induction false} ToldStays(c: Config, run: seq<System>, i: nat, id: string)
    requires IsRun(c, run) && i < |run| && Terminal(run[i].actions, id)
    ensures Terminal(Last(run).actions, id) && OutcomeOf(Last(run).actions[id]) == OutcomeOf(run[i].actions[id])
    ensures run[i].log <= Last(run).log
  {
    RunHistory(c, run, i, |run| - 1);
  }

  lemma {:induction false} HeadSwept(c: Config, run: seq<System>) returns (next: seq<System>)
    requires IsRun(c, run) && Last(run).mode.Recovering? && Last(run).mode.todo != []
    ensures IsRun(c, next) && |run| < |next| && run <= next
    ensures Last(next).mode == Last(run).mode.(todo := Last(run).mode.todo[1..], updated := false)
    ensures forall k :: |run| - 1 <= k < |next| ==> next[k].mode.Recovering?
    ensures ToldAll(Last(next), [Last(run).mode.todo[0]])
  {
    if Last(run).mode.updated {
      next := RowAnnounced(c, run);
      ToldStays(c, next, |run| - 1, Last(run).mode.todo[0]);
    } else {
      var swept := RowSwept(c, run);
      next := RowAnnounced(c, swept);
      ToldStays(c, next, |swept| - 1, Last(run).mode.todo[0]);
    }
  }

  lemma {:induction false} SweepEndsServing(c: Config, run: seq<System>) returns (longer: seq<System>)
    requires IsRun(c, run) && Last(run).mode.Recovering?
    ensures IsRun(c, longer) && |run| < |longer| && run <= longer && Last(longer).mode.Serving?
    ensures forall k :: |run| - 1 <= k < |longer| - 1 ==> longer[k].mode.Recovering?
    ensures ToldAll(Last(longer), Last(run).mode.todo)
    decreases |Last(run).mode.todo|
  {
    var todo := Last(run).mode.todo;
    if todo == [] {
      RunOn(c, run, OfSystem(Serve));
      longer := run + [DoServe(Last(run)).value];
    } else {
      var next := HeadSwept(c, run);
      longer := SweepEndsServing(c, next);
      assert [todo[0]][0] == todo[0];
      ToldStays(c, longer, |next| - 1, todo[0]);
      assert forall i :: 0 < i < |todo| ==> todo[i] == todo[1..][i - 1];
    }
  }

  lemma {:induction false} RestartBegins(c: Config, run: seq<System>, now: real) returns (next: seq<System>)
    requires IsRun(c, run) && Last(run).mode.Down?
    ensures IsRun(c, next) && |next| == |run| + 1 && run <= next
    ensures Last(next).mode.Recovering?
    ensures Last(next) == Last(run).(mode := Recovering(Last(next).mode.todo, false, now))
    ensures forall id :: id in Last(run).actions && Last(run).actions[id].status == PENDING ==>
      id in Last(next).mode.todo
  {
    var s := Last(run);
    RunKeeps(c, run, |run| - 1);
    assert forall id :: id in s.actions ==> RowOk(c, id, s.actions[id]);
    var todo := ListingExists(s.actions, s.actions.Keys, Some(PENDING));
    assert (map id | id in s.actions.Keys :: s.actions[id]) == s.actions;
    RunOn(c, run, OfSystem(Restart(todo, now)));
    next := run + [DoRestart(s, todo, now).value];
    RunKeeps(c, next, |run|);
  }

  /** From any run that ends in a stopped process, a restart that is left alone comes to serve, with
      exactly the PENDING rows expired, each of them announced. */
  lemma {:induction false} RestartServes(c: Config, run: seq<System>, now: real) returns (longer: seq<System>)
    requires IsRun(c, run) && Last(run).mode.Down?
    ensures IsRun(c, longer) && run <= longer && Last(longer).mode.Serving?
    ensures Last(longer).actions == map id | id in Last(run).actions ::
      if Last(run).actions[id].status == PENDING
      then Last(run).actions[id].(status := EXPIRED, decidedBy := None, resolvedAt := Some(now))
      else Last(run).actions[id]
    ensures forall id :: id in Last(run).actions && Last(run).actions[id].status == PENDING ==>
      ResolvedAnnounced(id, Outcome(EXPIRED, None, Some(now))) in Last(longer).log
  {
    var next := RestartBegins(c, run, now);
    longer := SweepEndsServing(c, next);
    RestartExpiresExactlyThePending(c, longer, |run|, |longer| - 1);
    forall id | id in Last(run).actions && Last(run).actions[id].status == PENDING
      ensures ResolvedAnnounced(id, Outcome(EXPIRED, None, Some(now))) in Last(longer).log
    {
      var i :| 0 <= i < |Last(next).mode.todo| && Last(next).mode.todo[i] == id;
    }
  }
}
