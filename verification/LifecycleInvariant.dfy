/** What every step of the lifecycle keeps. */
module LifecycleInvariant {
  import opened Records
  import opened Tables
  import opened Holds
  import opened Compensation
  import opened Lifecycle

  // ---- The parts of the invariant ---------------------------------------------

  ghost predicate Terminal(t: ActionTable, id: string) {
    id in t && t[id].status != PENDING
  }

  /** A row's status agrees with its decider, its resolution time and its risk level. */
  ghost predicate RowOk(c: Config, id: string, row: Action) {
    && row.actionId == id
    && (row.status == PENDING ==> row.decidedBy.None? && row.resolvedAt.None?)
    && (row.status != PENDING ==> row.resolvedAt.Some?)
    && (row.status == APPROVED || row.status == DENIED ==> row.decidedBy.Some?)
    && (row.status == EXPIRED || row.status == AUTO_ALLOWED ==> row.decidedBy.None?)
    && (row.ruleId != UNDO_RULE ==> (row.status == AUTO_ALLOWED <==> row.riskLevel !in c.heldRiskLevels))
    && (row.ruleId == UNDO_RULE ==> row.status == APPROVED)
  }

  ghost predicate RowsOk(c: Config, t: ActionTable) {
    forall id :: id in t ==> RowOk(c, id, t[id])
  }

  /** An event is set only after its row is terminal, and then it has left the map. */
  ghost predicate HoldsOk(t: ActionTable, h: HoldMap) {
    && h.pending <= h.flags.Keys
    && forall id :: id in h.flags ==> id in t && (h.flags[id] ==> t[id].status != PENDING && id !in h.pending)
  }

  /** A PENDING row has an unset event in the map. */
  ghost predicate HoldOk(t: ActionTable, h: HoldMap, id: string) {
    id in t && id in h.flags && (t[id].status == PENDING ==> id in h.pending && !h.flags[id])
  }

  ghost predicate Describes(t: ActionTable, id: string, risk: RiskDecision) {
    && id in t
    && t[id].riskLevel == risk.riskLevel && t[id].ruleId == risk.ruleId && t[id].reversibility == risk.reversibility
    && risk.ruleId != UNDO_RULE
  }

  ghost predicate ReadOk(t: ActionTable, h: HoldMap, id: string, call: Call) {
    && Describes(t, id, call.risk) && Terminal(t, id) && id !in h.pending
    && OutcomeOf(call.local) == OutcomeOf(t[id])
  }

  ghost predicate CallOk(c: Config, t: ActionTable, h: HoldMap, id: string, call: Call) {
    var held := call.risk.riskLevel in c.heldRiskLevels;
    var first := if held then PENDING else AUTO_ALLOWED;
    match call.phase
    case Inserting =>
      && id !in t && id !in h.flags && RowOk(c, id, call.local) && call.local.status == first
      && Describes(map[id := call.local], id, call.risk)
    case Inserted => Describes(t, id, call.risk) && id !in h.flags && call.local.status == first
    case AnnouncingPending => Describes(t, id, call.risk) && held && HoldOk(t, h, id) && call.local.status == PENDING
    case Submitted =>
      && Describes(t, id, call.risk) && call.local.status == first
      && (held ==> HoldOk(t, h, id))
      && (!held ==> id !in h.pending)
    case Looking => Describes(t, id, call.risk) && Terminal(t, id) && id !in h.pending
    case Waiting => Describes(t, id, call.risk) && HoldOk(t, h, id) && (id in h.pending || h.flags[id])
    case TimedOut => Describes(t, id, call.risk) && HoldOk(t, h, id)
    case Leaving => Describes(t, id, call.risk) && Terminal(t, id)
    case Reading(_) => Describes(t, id, call.risk) && Terminal(t, id) && id !in h.pending
    case AnnouncingExpiry => ReadOk(t, h, id, call)
    case Returning => ReadOk(t, h, id, call)
    case Cleared => Describes(t, id, call.risk) && Executable(t[id].status) && id !in h.pending
    case Armed => Describes(t, id, call.risk) && Executable(t[id].status) && id !in h.pending
    case Finished => true
  }

  ghost predicate CallsOk(c: Config, t: ActionTable, h: HoldMap, calls: map<string, Call>) {
    forall id :: id in calls ==> CallOk(c, t, h, id, calls[id])
  }

  ghost predicate DecisionOk(t: ActionTable, d: Decision) {
    match d.phase
    case Checking => true
    case Updating => d.id in t
    case Releasing => Terminal(t, d.id)
    case Rereading => Terminal(t, d.id)
    case Announcing(row) => Terminal(t, d.id) && OutcomeOf(row) == OutcomeOf(t[d.id])
    case Answering(row) => Terminal(t, d.id) && OutcomeOf(row) == OutcomeOf(t[d.id])
    case Answered => true
  }

  ghost predicate DecisionsOk(t: ActionTable, decisions: map<nat, Decision>) {
    forall r :: r in decisions ==> DecisionOk(t, decisions[r])
  }

  /** The compensating calls made for an action, in order. */
  ghost function CallsFor(log: seq<LogEvent>, id: string): seq<ToolCall> {
    if log == [] then []
    else
      var last := log[|log| - 1];
      CallsFor(log[..|log| - 1], id) + if last.Compensated? && last.id == id then [last.call] else []
  }

  ghost predicate EntryOk(t: ActionTable, log: seq<LogEvent>, issued: set<string>, id: string, e: JournalEntry) {
    && id in t && Executable(t[id].status) && t[id].reversibility == COMPENSABLE && t[id].ruleId != UNDO_RULE
    && WellKinded(e.kind, e.payload)
    && (e.undoneAt.Some? <==> e.undoActionId.Some?)
    && (e.undoActionId.Some? ==> e.undoActionId.value in issued)
    && (e.undoneAt.None? ==> CallsFor(log, id) == [])
    && CallsFor(log, id) <= PlanOf(e.kind, e.payload)
  }

  ghost predicate JournalOk(t: ActionTable, j: JournalTable, log: seq<LogEvent>, issued: set<string>) {
    && (forall id :: id in j ==> EntryOk(t, log, issued, id, j[id]))
    && (forall a, b :: a in j && b in j && a != b && j[a].undoActionId.Some? ==> j[a].undoActionId != j[b].undoActionId)
  }

  ghost predicate UndoneBy(j: JournalTable, entry: string, undoId: string) {
    entry in j && j[entry].undoActionId == Some(undoId)
  }

  /** Every compensation row is the undo of some entry. */
  ghost predicate UndoRowsOk(t: ActionTable, j: JournalTable) {
    forall id :: id in t && t[id].ruleId == UNDO_RULE ==> exists entry :: UndoneBy(j, entry, id)
  }

  /** A drawn undo id that is no row and no call. */
  ghost predicate Reserved(t: ActionTable, calls: map<string, Call>, issued: set<string>, undoId: string) {
    undoId in issued && undoId !in t && undoId !in calls
  }

  ghost predicate UndoOk(s: System, undo: Undo) {
    match undo.phase
    case Fetching => true
    case FetchingJournal(row) => undo.id in s.actions && Executable(s.actions[undo.id].status)
    case Marking(row, entry, undoId) =>
      && undo.id in s.journal && s.journal[undo.id].kind == entry.kind && s.journal[undo.id].payload == entry.payload
      && Reserved(s.actions, s.calls, s.issued, undoId)
      && forall other :: !UndoneBy(s.journal, other, undoId)
    case Compensating(row, undoId, total, rest) =>
      && UndoneBy(s.journal, undo.id, undoId)
      && Reserved(s.actions, s.calls, s.issued, undoId)
      && CallsFor(s.log, undo.id) + rest == PlanOf(s.journal[undo.id].kind, s.journal[undo.id].payload)
    case AnnouncingUndo(undoId) => true
    case Closed => true
  }

  function UndoIdOf(undo: Undo): Option<string> {
    match undo.phase
    case Marking(_, _, undoId) => Some(undoId)
    case Compensating(_, undoId, _, _) => Some(undoId)
    case _ => None
  }

  ghost predicate UndosOk(s: System) {
    && (forall u :: u in s.undos ==> UndoOk(s, s.undos[u]))
    && (forall u, v :: u in s.undos && v in s.undos && u != v && UndoIdOf(s.undos[u]).Some? ==>
          UndoIdOf(s.undos[u]) != UndoIdOf(s.undos[v]))
  }

  ghost predicate Tells(t: ActionTable, id: string, o: Outcome) {
    Terminal(t, id) && OutcomeOf(t[id]) == o
  }

  ghost predicate EventOk(t: ActionTable, j: JournalTable, e: LogEvent) {
    match e
    case PendingAnnounced(id) => true
    case ResolvedAnnounced(id, o) => Tells(t, id, o)
    case DecideReturned(id, o) => Tells(t, id, o)
    case WaitReturned(id, o) => Tells(t, id, o)
    case Forwarded(id) => id in t && Executable(t[id].status) && t[id].ruleId != UNDO_RULE
    case Compensated(id, undoId, _) => UndoneBy(j, id, undoId)
    case UndoneAnnounced(_) => true
    case BuildRaised(_) => false
  }

  ghost predicate LogOk(t: ActionTable, j: JournalTable, log: seq<LogEvent>) {
    forall i :: 0 <= i < |log| ==> EventOk(t, j, log[i])
  }

  /** No id is forwarded twice, and only a finished call has been forwarded. */
  ghost predicate ForwardsOk(log: seq<LogEvent>, calls: map<string, Call>) {
    && (forall i, j :: 0 <= i < j < |log| && log[i].Forwarded? ==> log[i] != log[j])
    && (forall id :: id in calls && Forwarded(id) in log ==> calls[id].phase == Finished)
  }

  ghost predicate Swept(t: ActionTable, todo: seq<string>, updated: bool) {
    && (forall i :: 0 <= i < |todo| ==> todo[i] in t)
    && (updated ==> todo != [] && Terminal(t, todo[0]))
    && (forall id :: id in t && t[id].status == PENDING ==> id in todo)
  }

  ghost predicate ModeOk(s: System) {
    && (!s.mode.Serving? ==> s.holds == NO_HOLDS && s.calls == map[] && s.decisions == map[] && s.undos == map[])
    && (s.mode.Recovering? ==> Swept(s.actions, s.mode.todo, s.mode.updated))
  }

  ghost predicate IdsOk(s: System) {
    s.actions.Keys <= s.issued && s.calls.Keys <= s.issued
  }

  /** Rows, events and coroutines. */
  ghost predicate GateOk(c: Config, s: System) {
    && RowsOk(c, s.actions)
    && HoldsOk(s.actions, s.holds)
    && CallsOk(c, s.actions, s.holds, s.calls)
    && DecisionsOk(s.actions, s.decisions)
    && ModeOk(s)
    && IdsOk(s)
  }

  /** Journal, undo requests and log. */
  ghost predicate RecordsOk(s: System) {
    && JournalOk(s.actions, s.journal, s.log, s.issued)
    && UndoRowsOk(s.actions, s.journal)
    && UndosOk(s)
    && LogOk(s.actions, s.journal, s.log)
    && ForwardsOk(s.log, s.calls)
  }

  ghost predicate Inv(c: Config, s: System) {
    GateOk(c, s) && RecordsOk(s)
  }

  /** Tables only evolve and the log only grows. */
  ghost predicate History(s: System, t: System) {
    Evolves(s.actions, t.actions) && JournalEvolves(s.journal, t.journal) && s.log <= t.log
  }

  // ---- Frames -----------------------------------------------------------------

  /** The hold map looks the same to one id. */
  ghost predicate SameHold(h: HoldMap, k: HoldMap, id: string) {
    && (id in h.pending <==> id in k.pending)
    && (id in h.flags <==> id in k.flags)
    && (id in h.flags ==> h.flags[id] == k.flags[id])
  }

  lemma {:induction false} CallFrame(c: Config, t: ActionTable, h: HoldMap, u: ActionTable, k: HoldMap, id: string,
      call: Call)
    requires CallOk(c, t, h, id, call) && Evolves(t, u) && SameHold(h, k, id)
    requires id in u ==> id in t
    ensures CallOk(c, u, k, id, call)
  {
  }

  /** A table change that adds no row of a call in flight. */
  lemma {:induction false} CallsFrame(c: Config, t: ActionTable, u: ActionTable, h: HoldMap, calls: map<string, Call>)
    requires CallsOk(c, t, h, calls) && Evolves(t, u)
    requires forall id :: id in calls && id in u ==> id in t
    ensures CallsOk(c, u, h, calls)
  {
    forall id | id in calls ensures CallOk(c, u, h, id, calls[id]) {
      CallFrame(c, t, h, u, h, id, calls[id]);
    }
  }

  lemma {:induction false} DecisionsFrame(t: ActionTable, u: ActionTable, decisions: map<nat, Decision>)
    requires DecisionsOk(t, decisions) && Evolves(t, u)
    ensures DecisionsOk(u, decisions)
  {
  }

  ghost predicate UndoMarksKept(j: JournalTable, k: JournalTable) {
    forall id :: id in j && j[id].undoActionId.Some? ==> id in k && k[id].undoActionId == j[id].undoActionId
  }

  lemma {:induction false} LogFrame(t: ActionTable, j: JournalTable, u: ActionTable, k: JournalTable,
      log: seq<LogEvent>)
    requires LogOk(t, j, log) && Evolves(t, u) && UndoMarksKept(j, k)
    ensures LogOk(u, k, log)
  {
  }

  lemma {:induction false} UndoRowsFrame(t: ActionTable, j: JournalTable, u: ActionTable, k: JournalTable)
    requires UndoRowsOk(t, j) && Evolves(t, u) && UndoMarksKept(j, k)
    requires forall row :: row in u && row !in t ==> u[row].ruleId != UNDO_RULE
    ensures UndoRowsOk(u, k)
  {
    forall row | row in u && u[row].ruleId == UNDO_RULE ensures exists entry :: UndoneBy(k, entry, row) {
      assert t[row].ruleId == UNDO_RULE;
      var entry :| UndoneBy(j, entry, row);
      assert UndoneBy(k, entry, row);
    }
  }

  /** Journal changes that lose no undo mark. */
  lemma {:induction false} MarksFrame(t: ActionTable, j: JournalTable, k: JournalTable, log: seq<LogEvent>)
    requires LogOk(t, j, log) && UndoRowsOk(t, j) && UndoMarksKept(j, k)
    ensures LogOk(t, k, log) && UndoRowsOk(t, k)
  {
    LogFrame(t, j, t, k, log);
    UndoRowsFrame(t, j, t, k);
  }

  lemma {:induction false} CallsForOther(log: seq<LogEvent>, e: LogEvent, id: string)
    requires !(e.Compensated? && e.id == id)
    ensures CallsFor(log + [e], id) == CallsFor(log, id)
  {
    assert (log + [e])[..|log|] == log;
  }

  lemma {:induction false} CallsForSelf(log: seq<LogEvent>, e: LogEvent, id: string)
    requires e.Compensated? && e.id == id
    ensures CallsFor(log + [e], id) == CallsFor(log, id) + [e.call]
  {
    assert (log + [e])[..|log|] == log;
  }

  lemma {:induction false} NoCallsFor(log: seq<LogEvent>, id: string)
    requires forall i :: 0 <= i < |log| ==> !(log[i].Compensated? && log[i].id == id)
    ensures CallsFor(log, id) == []
  {
    if log != [] {
      NoCallsFor(log[..|log| - 1], id);
    }
  }

  /** An action with no journal entry, or an unmarked one, has had no compensating call. */
  lemma {:induction false} UnmarkedHasNoCalls(t: ActionTable, j: JournalTable, log: seq<LogEvent>, id: string)
    requires LogOk(t, j, log) && (id in j ==> j[id].undoActionId.None?)
    ensures CallsFor(log, id) == []
  {
    forall i | 0 <= i < |log| ensures !(log[i].Compensated? && log[i].id == id) {
      assert EventOk(t, j, log[i]);
    }
    NoCallsFor(log, id);
  }

  ghost predicate SameCompensations(log: seq<LogEvent>, longer: seq<LogEvent>) {
    forall id :: CallsFor(longer, id) == CallsFor(log, id)
  }

  /** No undo id in use has become a row or a call. */
  ghost predicate ReservedStay(s: System, t: System) {
    forall id :: id in s.issued && id !in s.calls && (id in t.actions || id in t.calls) ==> id in s.actions
  }

  lemma {:induction false} UndoFrame(s: System, t: System, u: nat)
    requires u in s.undos && UndoOk(s, s.undos[u]) && t.journal == s.journal && s.issued <= t.issued
    requires Evolves(s.actions, t.actions) && ReservedStay(s, t) && SameCompensations(s.log, t.log)
    ensures UndoOk(t, s.undos[u])
  {
  }

  lemma {:induction false} UndosFrame(s: System, t: System)
    requires UndosOk(s) && t.undos == s.undos && t.journal == s.journal && s.issued <= t.issued
    requires Evolves(s.actions, t.actions) && ReservedStay(s, t) && SameCompensations(s.log, t.log)
    ensures UndosOk(t)
  {
    forall u | u in t.undos ensures UndoOk(t, t.undos[u]) {
      UndoFrame(s, t, u);
    }
  }

  lemma {:induction false} JournalFrame(s: System, t: System)
    requires JournalOk(s.actions, s.journal, s.log, s.issued) && t.journal == s.journal && s.issued <= t.issued
    requires Evolves(s.actions, t.actions) && SameCompensations(s.log, t.log)
    ensures JournalOk(t.actions, t.journal, t.log, t.issued)
  {
  }

  /** An event that is neither a forward nor a compensating call. */
  predicate Quiet(e: LogEvent) {
    !e.Forwarded? && !e.Compensated?
  }

  /** The log is unchanged or has one more good event, which is not a compensating call. */
  ghost predicate LogGrows(s: System, t: System) {
    t.log == s.log ||
      (|t.log| == |s.log| + 1 && t.log[..|s.log|] == s.log
       && EventOk(t.actions, t.journal, t.log[|s.log|]) && !t.log[|s.log|].Compensated?)
  }

  ghost predicate GrowsQuietly(s: System, t: System) {
    LogGrows(s, t) && (t.log == s.log || Quiet(t.log[|s.log|]))
  }

  lemma {:induction false} GrownLogKeeps(s: System, t: System)
    requires LogOk(s.actions, s.journal, s.log) && Evolves(s.actions, t.actions) && UndoMarksKept(s.journal, t.journal)
    requires LogGrows(s, t)
    ensures LogOk(t.actions, t.journal, t.log)
    ensures SameCompensations(s.log, t.log)
  {
    LogFrame(s.actions, s.journal, t.actions, t.journal, s.log);
    if t.log != s.log {
      var e := t.log[|s.log|];
      assert t.log == s.log + [e];
      forall id ensures CallsFor(t.log, id) == CallsFor(s.log, id) {
        CallsForOther(s.log, e, id);
      }
    }
  }

  lemma {:induction false} QuietForwards(s: System, t: System)
    requires ForwardsOk(s.log, s.calls) && t.calls == s.calls && GrowsQuietly(s, t)
    ensures ForwardsOk(t.log, t.calls)
  {
    if t.log != s.log { assert t.log == s.log + [t.log[|s.log|]]; }
  }

  /** A step that leaves journal and undo requests alone and makes no undo id a row or a call. */
  ghost predicate LeavesRecords(s: System, t: System) {
    && t.journal == s.journal && t.undos == s.undos && s.issued <= t.issued
    && Evolves(s.actions, t.actions) && ReservedStay(s, t)
    && (forall row :: row in t.actions && row !in s.actions ==> t.actions[row].ruleId != UNDO_RULE)
    && LogGrows(s, t)
  }

  lemma {:induction false} RecordsFrame(s: System, t: System)
    requires RecordsOk(s) && LeavesRecords(s, t) && ForwardsOk(t.log, t.calls)
    ensures RecordsOk(t)
  {
    GrownLogKeeps(s, t);
    JournalFrame(s, t);
    UndosFrame(s, t);
    UndoRowsFrame(s.actions, s.journal, t.actions, t.journal);
  }

  // ---- One call moves ---------------------------------------------------------

  /** A forward is of the moving call itself, which it finishes. */
  ghost predicate ForwardsOwn(s: System, t: System, id: string)
    requires id in s.calls && id in t.calls && LogGrows(s, t)
  {
    t.log == s.log || Quiet(t.log[|t.log| - 1])
    || (t.log[|t.log| - 1] == Forwarded(id) && s.calls[id].phase != Finished && t.calls[id].phase == Finished)
  }

  /** What a step of call `id` may touch. */
  ghost predicate CallMoves(c: Config, s: System, t: System, id: string) {
    && s.mode.Serving? && id in s.calls && id in t.calls
    && t == s.(actions := t.actions, holds := t.holds, calls := s.calls[id := t.calls[id]], log := t.log,
      missed := t.missed)
    && Evolves(s.actions, t.actions) && t.actions.Keys <= s.actions.Keys + {id} && RowsOk(c, t.actions)
    && (id in t.actions && id !in s.actions ==> t.actions[id].ruleId != UNDO_RULE)
    && HoldsOk(t.actions, t.holds) && (forall other :: other != id ==> SameHold(s.holds, t.holds, other))
    && CallOk(c, t.actions, t.holds, id, t.calls[id])
    && (s.calls[id].phase == Finished ==> t.calls[id].phase == Finished)
    && LogGrows(s, t) && ForwardsOwn(s, t, id)
  }

  lemma {:induction false} MovedCallsOk(c: Config, s: System, t: System, id: string)
    requires CallsOk(c, s.actions, s.holds, s.calls) && CallMoves(c, s, t, id)
    ensures CallsOk(c, t.actions, t.holds, t.calls)
  {
    forall other | other in t.calls ensures CallOk(c, t.actions, t.holds, other, t.calls[other]) {
      if other != id {
        CallFrame(c, s.actions, s.holds, t.actions, t.holds, other, s.calls[other]);
      }
    }
  }

  lemma {:induction false} MovedForwardsOk(s: System, t: System, id: string)
    requires ForwardsOk(s.log, s.calls) && id in s.calls && id in t.calls && t.calls == s.calls[id := t.calls[id]]
    requires s.calls[id].phase == Finished ==> t.calls[id].phase == Finished
    requires LogGrows(s, t) && ForwardsOwn(s, t, id)
    ensures ForwardsOk(t.log, t.calls)
  {
    if t.log != s.log {
      var e := t.log[|s.log|];
      assert t.log == s.log + [e];
      assert e.Forwarded? ==> e !in s.log;
    }
  }

  lemma {:induction false} CallMoveKeepsGate(c: Config, s: System, t: System, id: string)
    requires GateOk(c, s) && CallMoves(c, s, t, id)
    ensures GateOk(c, t)
  {
    MovedCallsOk(c, s, t, id);
    DecisionsFrame(s.actions, t.actions, s.decisions);
  }

  lemma {:induction false} CallMoveKeepsRecords(c: Config, s: System, t: System, id: string)
    requires RecordsOk(s) && CallMoves(c, s, t, id) && id in s.issued
    ensures RecordsOk(t)
  {
    MovedForwardsOk(s, t, id);
    assert LeavesRecords(s, t);
    RecordsFrame(s, t);
  }

  lemma {:induction false} CallMoveKeeps(c: Config, s: System, t: System, id: string)
    requires GateOk(c, s) && RecordsOk(s) && CallMoves(c, s, t, id)
    ensures Inv(c, t)
  {
    CallMoveKeepsGate(c, s, t, id);
    CallMoveKeepsRecords(c, s, t, id);
  }

  /** What the lemmas about one call need of the invariant. */
  ghost predicate CallContext(c: Config, s: System, id: string) {
    && s.mode.Serving? && id in s.calls && RowsOk(c, s.actions) && HoldsOk(s.actions, s.holds)
    && CallOk(c, s.actions, s.holds, id, s.calls[id])
  }

  function WithCall(s: System, id: string, call: Call): System {
    s.(calls := s.calls[id := call])
  }

  /** A step that only moves the call along. */
  lemma {:induction false} PhaseMoves(c: Config, s: System, id: string, call: Call)
    requires CallContext(c, s, id) && CallOk(c, s.actions, s.holds, id, call)
    requires s.calls[id].phase == Finished ==> call.phase == Finished
    ensures CallMoves(c, s, WithCall(s, id, call), id)
  {
  }

  /** A step that moves the call along and says so in the log. */
  lemma {:induction false} LoggedMoves(c: Config, s: System, id: string, call: Call, e: LogEvent)
    requires CallContext(c, s, id) && CallOk(c, s.actions, s.holds, id, call)
    requires s.calls[id].phase != Finished && EventOk(s.actions, s.journal, e)
    requires Quiet(e) || (e == Forwarded(id) && call.phase == Finished)
    ensures CallMoves(c, s, WithCall(s, id, call).(log := s.log + [e]), id)
  {
  }

  /** A step that changes the hold map for its own id. */
  lemma {:induction false} HoldMoves(c: Config, s: System, id: string, call: Call, h: HoldMap, missed: set<string>)
    requires CallContext(c, s, id) && CallOk(c, s.actions, h, id, call)
    requires HoldsOk(s.actions, h) && forall other :: other != id ==> SameHold(s.holds, h, other)
    requires s.calls[id].phase == Finished ==> call.phase == Finished
    ensures CallMoves(c, s, WithCall(s, id, call).(holds := h, missed := missed), id)
  {
  }

  lemma {:induction false} ForgetKeepsHolds(t: ActionTable, h: HoldMap, id: string)
    requires HoldsOk(t, h)
    ensures HoldsOk(t, Forget(h, id)) && forall other :: other != id ==> SameHold(h, Forget(h, id), other)
  {
  }

  lemma {:induction false} RegisterKeepsHolds(t: ActionTable, h: HoldMap, id: string)
    requires HoldsOk(t, h) && id in t
    ensures HoldsOk(t, Register(h, id)) && forall other :: other != id ==> SameHold(h, Register(h, id), other)
  {
  }

  lemma {:induction false} InsertRowMoves(c: Config, s: System, t: System, id: string)
    requires CallContext(c, s, id) && DoInsertRow(s, id) == Some(t)
    ensures CallMoves(c, s, t, id)
  {
  }

  lemma {:induction false} RegisterMoves(c: Config, s: System, t: System, id: string)
    requires CallContext(c, s, id) && DoRegisterEvent(c, s, id) == Some(t)
    ensures CallMoves(c, s, t, id)
  {
    assert RowOk(c, id, s.actions[id]);
    RegisterKeepsHolds(s.actions, s.holds, id);
    HoldMoves(c, s, id, t.calls[id], t.holds, t.missed);
  }

  lemma {:induction false} AnnouncePendingMoves(c: Config, s: System, t: System, id: string)
    requires CallContext(c, s, id) && DoAnnouncePending(s, id) == Some(t)
    ensures CallMoves(c, s, t, id)
  {
    LoggedMoves(c, s, id, s.calls[id].(phase := Submitted), PendingAnnounced(id));
  }

  /** The heart of the gate: a PENDING copy with no event in the map means the stored row is
      already decided. */
  lemma {:induction false} EnterWaitMoves(c: Config, s: System, t: System, id: string)
    requires CallContext(c, s, id) && DoEnterWait(s, id) == Some(t)
    ensures CallMoves(c, s, t, id) && (t.calls[id].phase == Looking ==> Terminal(t.actions, id))
  {
    assert RowOk(c, id, s.actions[id]);
    PhaseMoves(c, s, id, t.calls[id]);
  }

  lemma {:induction false} LookUpMoves(c: Config, s: System, t: System, id: string)
    requires CallContext(c, s, id) && DoLookUp(s, id) == Some(t)
    ensures CallMoves(c, s, t, id)
  {
    PhaseMoves(c, s, id, s.calls[id].(phase := Returning, local := s.actions[id]));
  }

  lemma {:induction false} WakeMoves(c: Config, s: System, t: System, id: string)
    requires CallContext(c, s, id) && DoWake(s, id) == Some(t)
    ensures CallMoves(c, s, t, id)
  {
    ForgetKeepsHolds(s.actions, s.holds, id);
    HoldMoves(c, s, id, t.calls[id], t.holds, s.missed);
  }

  lemma {:induction false} TimeOutMoves(c: Config, s: System, t: System, id: string)
    requires CallContext(c, s, id) && DoTimeOut(s, id) == Some(t)
    ensures CallMoves(c, s, t, id)
  {
    PhaseMoves(c, s, id, s.calls[id].(phase := TimedOut));
  }

  lemma {:induction false} ResolveKeepsRows(c: Config, t: ActionTable, id: string, o: Outcome)
    requires RowsOk(c, t) && o.resolvedAt.Some?
    requires (o.status == EXPIRED && o.decidedBy.None?)
      || ((o.status == APPROVED || o.status == DENIED) && o.decidedBy.Some?)
    ensures RowsOk(c, ResolveAction(t, id, o)) && Evolves(t, ResolveAction(t, id, o))
    ensures ResolveAction(t, id, o).Keys == t.Keys
    ensures id in t ==> Terminal(ResolveAction(t, id, o), id)
  {
  }

  lemma {:induction false} HoldsFrame(t: ActionTable, u: ActionTable, h: HoldMap)
    requires HoldsOk(t, h) && Evolves(t, u)
    ensures HoldsOk(u, h)
  {
  }

  lemma {:induction false} ExpireMoves(c: Config, s: System, t: System, id: string, now: real)
    requires CallContext(c, s, id) && DoExpire(s, id, now) == Some(t)
    ensures CallMoves(c, s, t, id)
  {
    ResolveKeepsRows(c, s.actions, id, Expired(now));
    HoldsFrame(s.actions, t.actions, s.holds);
    assert SameRequest(s.actions[id], t.actions[id]);
    assert CallOk(c, t.actions, t.holds, id, t.calls[id]);
  }

  lemma {:induction false} LeaveWaitMoves(c: Config, s: System, t: System, id: string)
    requires CallContext(c, s, id) && DoLeaveWait(s, id) == Some(t)
    ensures CallMoves(c, s, t, id)
  {
    ForgetKeepsHolds(s.actions, s.holds, id);
    HoldMoves(c, s, id, t.calls[id], t.holds, s.missed);
  }

  lemma {:induction false} ReadBackMoves(c: Config, s: System, t: System, id: string)
    requires CallContext(c, s, id) && DoReadBack(s, id) == Some(t)
    ensures CallMoves(c, s, t, id)
  {
    var next := if s.calls[id].phase == Reading(true) then AnnouncingExpiry else Returning;
    PhaseMoves(c, s, id, s.calls[id].(phase := next, local := s.actions[id]));
  }

  lemma {:induction false} AnnounceExpiryMoves(c: Config, s: System, t: System, id: string)
    requires CallContext(c, s, id) && DoAnnounceExpiry(s, id) == Some(t)
    ensures CallMoves(c, s, t, id)
  {
    LoggedMoves(c, s, id, s.calls[id].(phase := Returning), ResolvedAnnounced(id, OutcomeOf(s.calls[id].local)));
  }

  lemma {:induction false} ReturnDecisionMoves(c: Config, s: System, t: System, id: string)
    requires CallContext(c, s, id) && DoReturnDecision(s, id) == Some(t)
    ensures CallMoves(c, s, t, id)
  {
    assert RowOk(c, id, s.actions[id]);
    LoggedMoves(c, s, id, t.calls[id], WaitReturned(id, OutcomeOf(s.calls[id].local)));
  }

  lemma {:induction false} ArmMoves(c: Config, s: System, id: string)
    requires CallContext(c, s, id) && CallAt(s, id, Cleared)
    ensures CallMoves(c, s, Goto(s, id, Armed), id)
  {
    PhaseMoves(c, s, id, s.calls[id].(phase := Armed));
  }

  lemma {:induction false} ForwardMoves(c: Config, s: System, t: System, id: string)
    requires CallContext(c, s, id) && DoForward(s, id) == Some(t)
    ensures CallMoves(c, s, t, id)
  {
    LoggedMoves(c, s, id, s.calls[id].(phase := Finished), Forwarded(id));
  }

  lemma {:induction false} CancelledMoves(c: Config, s: System, id: string, gone: Call)
    requires CallContext(c, s, id) && gone.phase == Finished
    ensures CallMoves(c, s, WithCall(s, id, gone), id)
    ensures CallMoves(c, s, WithCall(s, id, gone).(holds := Forget(s.holds, id), missed := s.missed), id)
  {
    PhaseMoves(c, s, id, gone);
    ForgetKeepsHolds(s.actions, s.holds, id);
    HoldMoves(c, s, id, gone, Forget(s.holds, id), s.missed);
  }

  lemma {:induction false} CancelMoves(c: Config, s: System, t: System, id: string)
    requires CallContext(c, s, id) && DoCancelCall(s, id) == Some(t)
    ensures CallMoves(c, s, t, id)
  {
    var gone := s.calls[id].(phase := Finished);
    assert t == WithCall(s, id, gone) || t == WithCall(s, id, gone).(holds := Forget(s.holds, id), missed := s.missed);
    CancelledMoves(c, s, id, gone);
  }

  lemma {:induction false} EarlyStepMoves(c: Config, s: System, step: CallStep, t: System)
    requires CallContext(c, s, step.id) && TakeCall(c, s, step) == Some(t) && Early(step) && !step.BeginCall?
    ensures CallMoves(c, s, t, step.id)
  {
    match step
    case RegisterEvent(id) => RegisterMoves(c, s, t, id);
    case AnnouncePending(id) => AnnouncePendingMoves(c, s, t, id);
    case EnterWait(id) => EnterWaitMoves(c, s, t, id);
    case LookUp(id) => LookUpMoves(c, s, t, id);
    case Wake(id) => WakeMoves(c, s, t, id);
    case TimeOut(id) => TimeOutMoves(c, s, t, id);
  }

  lemma {:induction false} LateStepMoves(c: Config, s: System, step: CallStep, t: System)
    requires CallContext(c, s, step.id) && TakeCall(c, s, step) == Some(t) && !Early(step) && !step.CaptureImage?
    ensures CallMoves(c, s, t, step.id)
  {
    match step
    case InsertRow(id) => InsertRowMoves(c, s, t, id);
    case Expire(id, now) => ExpireMoves(c, s, t, id, now);
    case LeaveWait(id) => LeaveWaitMoves(c, s, t, id);
    case ReadBack(id) => ReadBackMoves(c, s, t, id);
    case AnnounceExpiry(id) => AnnounceExpiryMoves(c, s, t, id);
    case ReturnDecision(id) => ReturnDecisionMoves(c, s, t, id);
    case CaptureNothing(id) => ArmMoves(c, s, id);
    case Forward(id) => ForwardMoves(c, s, t, id);
    case CancelCall(id) => CancelMoves(c, s, t, id);
  }

  lemma {:induction false} StepHasContext(c: Config, s: System, step: CallStep)
    requires GateOk(c, s) && TakeCall(c, s, step).Some? && !step.BeginCall?
    ensures CallContext(c, s, step.id)
  {
    assert s.mode.Serving? && step.id in s.calls;
    assert CallOk(c, s.actions, s.holds, step.id, s.calls[step.id]);
  }

  // ---- Beginning a call, capturing an image -----------------------------------

  lemma {:induction false} BeginKeepsGate(c: Config, s: System, t: System, id: string, r: Request, now: real)
    requires GateOk(c, s) && DoBeginCall(c, s, id, r, now) == Some(t)
    ensures GateOk(c, t)
  {
    assert id !in s.actions && id !in s.holds.flags;
  }

  lemma {:induction false} BeginKeepsRecords(c: Config, s: System, t: System, id: string, r: Request, now: real)
    requires RecordsOk(s) && IdsOk(s) && DoBeginCall(c, s, id, r, now) == Some(t)
    ensures RecordsOk(t)
  {
    assert Forwarded(id) !in s.log;
    RecordsFrame(s, t);
  }

  lemma {:induction false} GrownUndosOk(s: System, t: System, id: string)
    requires UndosOk(s) && id !in s.journal && id in t.journal && t == s.(journal := s.journal[id := t.journal[id]])
    requires t.journal[id].undoActionId.None?
    ensures UndosOk(t)
  {
    assert forall entry, undoId :: UndoneBy(s.journal, entry, undoId) <==> UndoneBy(t.journal, entry, undoId);
    forall u | u in t.undos ensures UndoOk(t, t.undos[u]) {
      assert UndoOk(s, s.undos[u]);
    }
  }

  lemma {:induction false} GrownJournalOk(s: System, t: System, id: string)
    requires JournalOk(s.actions, s.journal, s.log, s.issued)
    requires id !in s.journal && id in t.journal && t == s.(journal := s.journal[id := t.journal[id]])
    requires t.journal[id].undoActionId.None? && EntryOk(t.actions, t.log, t.issued, id, t.journal[id])
    ensures JournalOk(t.actions, t.journal, t.log, t.issued)
  {
  }

  lemma {:induction false} JournalGrowthKeeps(s: System, t: System, id: string)
    requires RecordsOk(s) && id !in s.journal && id in t.journal && t == s.(journal := s.journal[id := t.journal[id]])
    requires t.journal[id].undoActionId.None? && EntryOk(t.actions, t.log, t.issued, id, t.journal[id])
    ensures RecordsOk(t)
  {
    GrownUndosOk(s, t, id);
    GrownJournalOk(s, t, id);
    MarksFrame(s.actions, s.journal, t.journal, s.log);
  }

  lemma {:induction false} CapturedEntryOk(c: Config, s: System, t: System, id: string, kind: string,
      payload: Payload, now: real)
    requires CallContext(c, s, id) && id !in s.journal && CallsFor(s.log, id) == []
    requires DoCaptureImage(s, id, kind, payload, now) == Some(t)
    ensures id in t.journal && t == Goto(s, id, Armed).(journal := s.journal[id := t.journal[id]])
    ensures t.journal[id].undoActionId.None? && EntryOk(t.actions, t.log, t.issued, id, t.journal[id])
  {
  }

  lemma {:induction false} CaptureKeepsRecords(c: Config, s: System, t: System, id: string, kind: string,
      payload: Payload, now: real)
    requires CallContext(c, s, id) && RecordsOk(s) && id in s.issued
      && DoCaptureImage(s, id, kind, payload, now) == Some(t)
    ensures RecordsOk(t)
  {
    var armed := Goto(s, id, Armed);
    ArmMoves(c, s, id);
    CallMoveKeepsRecords(c, s, armed, id);
    if id !in s.journal {
      UnmarkedHasNoCalls(s.actions, s.journal, s.log, id);
      CapturedEntryOk(c, s, t, id, kind, payload, now);
      JournalGrowthKeeps(armed, t, id);
    } else {
      assert t == armed;
    }
  }

  lemma {:induction false} CaptureKeepsGate(c: Config, s: System, t: System, id: string, kind: string,
      payload: Payload, now: real)
    requires GateOk(c, s) && CallContext(c, s, id) && DoCaptureImage(s, id, kind, payload, now) == Some(t)
    ensures GateOk(c, t)
  {
    ArmMoves(c, s, id);
    CallMoveKeepsGate(c, s, Goto(s, id, Armed), id);
  }

  lemma {:induction false} CallStepKeeps(c: Config, s: System, step: CallStep, t: System)
    requires GateOk(c, s) && RecordsOk(s) && TakeCall(c, s, step) == Some(t)
    ensures Inv(c, t)
  {
    if step.BeginCall? {
      BeginKeepsGate(c, s, t, step.id, step.request, step.now);
      BeginKeepsRecords(c, s, t, step.id, step.request, step.now);
    } else {
      StepHasContext(c, s, step);
      if step.CaptureImage? {
        CaptureKeepsGate(c, s, t, step.id, step.kind, step.payload, step.now);
        CaptureKeepsRecords(c, s, t, step.id, step.kind, step.payload, step.now);
      } else {
        if Early(step) { EarlyStepMoves(c, s, step, t); } else { LateStepMoves(c, s, step, t); }
        CallMoveKeeps(c, s, t, step.id);
      }
    }
  }

  // ---- One decision moves -----------------------------------------------------

  /** What a step of decision `r` may touch. */
  ghost predicate DecisionMoves(c: Config, s: System, t: System, r: nat) {
    && s.mode.Serving? && r in t.decisions
    && t == s.(actions := t.actions, holds := t.holds, decisions := s.decisions[r := t.decisions[r]], log := t.log,
      missed := t.missed)
    && Evolves(s.actions, t.actions) && t.actions.Keys == s.actions.Keys && RowsOk(c, t.actions)
    && (t.holds == s.holds || (r in s.decisions && Terminal(t.actions, s.decisions[r].id)
      && t.holds == Release(s.holds, s.decisions[r].id)))
    && DecisionOk(t.actions, t.decisions[r])
    && GrowsQuietly(s, t)
  }

  lemma {:induction false} ReleaseCallFrame(c: Config, t: ActionTable, h: HoldMap, decided: string, id: string,
      call: Call)
    requires HoldsOk(t, h) && CallOk(c, t, h, id, call) && Terminal(t, decided)
    ensures CallOk(c, t, Release(h, decided), id, call)
  {
    if id != decided {
      CallFrame(c, t, h, t, Release(h, decided), id, call);
    }
  }

  lemma {:induction false} ReleaseKeepsHolds(t: ActionTable, h: HoldMap, decided: string)
    requires HoldsOk(t, h) && Terminal(t, decided)
    ensures HoldsOk(t, Release(h, decided))
  {
  }

  lemma {:induction false} ReleasedCallsOk(c: Config, t: ActionTable, h: HoldMap, decided: string, calls: map<string,
      Call>)
    requires HoldsOk(t, h) && CallsOk(c, t, h, calls) && Terminal(t, decided)
    ensures CallsOk(c, t, Release(h, decided), calls)
  {
    forall id | id in calls ensures CallOk(c, t, Release(h, decided), id, calls[id]) {
      ReleaseCallFrame(c, t, h, decided, id, calls[id]);
    }
  }

  lemma {:induction false} DecisionMoveKeepsGate(c: Config, s: System, t: System, r: nat)
    requires GateOk(c, s) && DecisionMoves(c, s, t, r)
    ensures GateOk(c, t)
  {
    HoldsFrame(s.actions, t.actions, s.holds);
    CallsFrame(c, s.actions, t.actions, s.holds, s.calls);
    DecisionsFrame(s.actions, t.actions, s.decisions);
    if t.holds != s.holds {
      ReleaseKeepsHolds(t.actions, s.holds, s.decisions[r].id);
      ReleasedCallsOk(c, t.actions, s.holds, s.decisions[r].id, s.calls);
    }
  }

  lemma {:induction false} DecisionMoveKeepsRecords(c: Config, s: System, t: System, r: nat)
    requires RecordsOk(s) && DecisionMoves(c, s, t, r)
    ensures RecordsOk(t)
  {
    QuietForwards(s, t);
    RecordsFrame(s, t);
  }

  lemma {:induction false} DecideUpdateMoves(c: Config, s: System, t: System, r: nat, now: real)
    requires RowsOk(c, s.actions) && DecisionsOk(s.actions, s.decisions) && DoDecideUpdate(s, r, now) == Some(t)
    ensures DecisionMoves(c, s, t, r)
  {
    var d := s.decisions[r];
    ResolveKeepsRows(c, s.actions, d.id, Decided(d.approved, d.decidedBy, now));
    assert DecisionOk(s.actions, d);
  }

  lemma {:induction false} DecideReleaseMoves(c: Config, s: System, t: System, r: nat)
    requires RowsOk(c, s.actions) && DecisionsOk(s.actions, s.decisions) && DoDecideRelease(s, r) == Some(t)
    ensures DecisionMoves(c, s, t, r)
  {
    assert DecisionOk(s.actions, s.decisions[r]);
  }

  /** The steps of a decision that touch neither table nor events. */
  predicate Reads(step: DecisionStep) {
    !step.DecideUpdate? && !step.DecideRelease?
  }

  lemma {:induction false} DecisionReads(s: System, step: DecisionStep, t: System)
    requires Reads(step) && TakeDecision(s, step) == Some(t) && DecisionsOk(s.actions, s.decisions)
    ensures s.mode.Serving? && step.r in t.decisions && DecisionOk(t.actions, t.decisions[step.r]) && GrowsQuietly(s, t)
    ensures t == s.(decisions := s.decisions[step.r := t.decisions[step.r]], log := t.log, missed := t.missed)
  {
    assert step.r in s.decisions ==> DecisionOk(s.actions, s.decisions[step.r]);
  }

  lemma {:induction false} DecisionStepMoves(c: Config, s: System, step: DecisionStep, t: System)
    requires RowsOk(c, s.actions) && DecisionsOk(s.actions, s.decisions) && TakeDecision(s, step) == Some(t)
    ensures DecisionMoves(c, s, t, step.r)
  {
    match step
    case DecideUpdate(r, now) => DecideUpdateMoves(c, s, t, r, now);
    case DecideRelease(r) => DecideReleaseMoves(c, s, t, r);
    case _ => DecisionReads(s, step, t);
  }

  lemma {:induction false} DecisionStepKeeps(c: Config, s: System, step: DecisionStep, t: System)
    requires GateOk(c, s) && RecordsOk(s) && TakeDecision(s, step) == Some(t)
    ensures Inv(c, t)
  {
    DecisionStepMoves(c, s, step, t);
    DecisionMoveKeepsGate(c, s, t, step.r);
    DecisionMoveKeepsRecords(c, s, t, step.r);
  }

  // ---- One undo request moves -------------------------------------------------

  /** A step of undo `u` that only changes its own phase (and says so in the log). */
  ghost predicate UndoMoves(s: System, t: System, u: nat) {
    && s.mode.Serving? && u in t.undos
    && t == s.(undos := s.undos[u := t.undos[u]], issued := t.issued, log := t.log)
    && s.issued <= t.issued
    && UndoOk(t, t.undos[u])
    && (UndoIdOf(t.undos[u]).Some? ==>
          UndoIdOf(t.undos[u]).value !in s.issued || (u in s.undos && UndoIdOf(t.undos[u]) == UndoIdOf(s.undos[u])))
    && GrowsQuietly(s, t)
  }

  lemma {:induction false} MovedIdsDiffer(s: System, t: System, u: nat, v: nat, w: nat)
    requires UndosOk(s) && UndoMoves(s, t, u)
    requires v in t.undos && w in t.undos && v != w && UndoIdOf(t.undos[v]).Some?
    ensures UndoIdOf(t.undos[v]) != UndoIdOf(t.undos[w])
  {
    assert v != u ==> UndoOk(s, s.undos[v]);
    assert w != u ==> UndoOk(s, s.undos[w]);
  }

  lemma {:induction false} MovedUndosOk(s: System, t: System, u: nat)
    requires UndosOk(s) && UndoMoves(s, t, u) && SameCompensations(s.log, t.log)
    ensures UndosOk(t)
  {
    forall v | v in t.undos ensures UndoOk(t, t.undos[v]) {
      if v != u { UndoFrame(s, t, v); }
    }
    forall v, w | v in t.undos && w in t.undos && v != w && UndoIdOf(t.undos[v]).Some?
      ensures UndoIdOf(t.undos[v]) != UndoIdOf(t.undos[w])
    {
      MovedIdsDiffer(s, t, u, v, w);
    }
  }

  lemma {:induction false} UndoMoveKeepsRecords(s: System, t: System, u: nat)
    requires RecordsOk(s) && UndoMoves(s, t, u)
    ensures RecordsOk(t)
  {
    GrownLogKeeps(s, t);
    QuietForwards(s, t);
    MovedUndosOk(s, t, u);
    JournalFrame(s, t);
    UndoRowsFrame(s.actions, s.journal, t.actions, t.journal);
  }

  lemma {:induction false} FreshIsNoUndo(s: System, undoId: string)
    requires JournalOk(s.actions, s.journal, s.log, s.issued) && undoId !in s.issued
    ensures forall other :: !UndoneBy(s.journal, other, undoId)
  {
    forall other ensures !UndoneBy(s.journal, other, undoId) {
      if other in s.journal { assert EntryOk(s.actions, s.log, s.issued, other, s.journal[other]); }
    }
  }

  lemma {:induction false} FetchMoves(s: System, t: System, u: nat, undoId: string)
    requires IdsOk(s) && DoUndoFetch(s, u, undoId) == Some(t)
    requires forall other :: !UndoneBy(s.journal, other, undoId)
    ensures UndoMoves(s, t, u)
  {
    assert t.log == s.log && t.actions == s.actions && t.calls == s.calls && t.journal == s.journal;
    assert t.undos[u].phase.Marking? ==> Reserved(t.actions, t.calls, t.issued, undoId);
  }

  predicate PlainUndoStep(step: UndoStep) {
    step.BeginUndo? || step.UndoRead? || step.UndoAnnounce? || step.CancelUndo?
  }

  lemma {:induction false} PlainUndoMoves(s: System, step: UndoStep, t: System)
    requires PlainUndoStep(step) && TakeUndo(s, step) == Some(t)
    ensures UndoMoves(s, t, step.u)
  {
  }

  /** The entry's mark and the request's phase change together. */
  ghost predicate Marks(s: System, t: System, u: nat, now: real) {
    && s.mode.Serving? && u in s.undos && s.undos[u].phase.Marking?
    && Undoes(s.journal, s.undos[u].id) && UndoOk(s, s.undos[u])
    && s.journal[s.undos[u].id].undoActionId.None? && CallsFor(s.log, s.undos[u].id) == []
    && var phase := s.undos[u].phase; var plan := PlanOf(phase.entry.kind, phase.entry.payload);
    && t == s.(journal := MarkUndone(s.journal, s.undos[u].id, phase.undoId, now),
               undos := s.undos[u := s.undos[u].(phase := Compensating(phase.row, phase.undoId, |plan|, plan))])
  }

  lemma {:induction false} MarkedEntryOk(s: System, t: System, u: nat, now: real, a: string)
    requires Marks(s, t, u, now) && a in s.journal && EntryOk(s.actions, s.log, s.issued, a, s.journal[a])
    ensures EntryOk(s.actions, s.log, s.issued, a, t.journal[a])
  {
  }

  lemma {:induction false} MarkedJournalOk(s: System, t: System, u: nat, now: real)
    requires JournalOk(s.actions, s.journal, s.log, s.issued) && Marks(s, t, u, now)
    ensures JournalOk(s.actions, t.journal, s.log, s.issued)
  {
    var undoId := s.undos[u].phase.undoId;
    forall a | a in t.journal ensures EntryOk(s.actions, s.log, s.issued, a, t.journal[a]) {
      MarkedEntryOk(s, t, u, now, a);
    }
    forall a, b | a in t.journal && b in t.journal && a != b && t.journal[a].undoActionId.Some?
      ensures t.journal[a].undoActionId != t.journal[b].undoActionId
    {
      assert !UndoneBy(s.journal, a, undoId) && !UndoneBy(s.journal, b, undoId);
    }
  }

  lemma {:induction false} MarkedUndosOk(s: System, t: System, u: nat, now: real)
    requires UndosOk(s) && Marks(s, t, u, now)
    ensures UndosOk(t)
  {
    forall v | v in t.undos ensures UndoOk(t, t.undos[v]) {
      assert UndoOk(s, s.undos[v]);
      if v != u && s.undos[v].phase.Marking? {
        assert UndoIdOf(s.undos[v]) != UndoIdOf(s.undos[u]);
        forall other ensures !UndoneBy(t.journal, other, s.undos[v].phase.undoId) {
          assert !UndoneBy(s.journal, other, s.undos[v].phase.undoId);
        }
      }
    }
  }

  lemma {:induction false} MarkKeepsRecords(s: System, t: System, u: nat, now: real)
    requires RecordsOk(s) && Marks(s, t, u, now)
    ensures RecordsOk(t)
  {
    MarksFrame(s.actions, s.journal, t.journal, s.log);
    MarkedUndosOk(s, t, u, now);
    MarkedJournalOk(s, t, u, now);
  }

  lemma {:induction false} MarkingMarks(s: System, t: System, u: nat, now: real)
    requires RecordsOk(s) && DoUndoMark(s, u, now) == Some(t)
    ensures if Undoes(s.journal, s.undos[u].id) then Marks(s, t, u, now) else UndoMoves(s, t, u)
  {
    assert UndoOk(s, s.undos[u]);
    var id := s.undos[u].id;
    if Undoes(s.journal, id) {
      assert EntryOk(s.actions, s.log, s.issued, id, s.journal[id]);
    }
  }

  /** The entry has an undo id that no other entry has, no call has been made for its action,
      and the request sets out on the whole plan. */
  ghost predicate StartsThePlan(s: System, t: System, u: nat) {
    && u in s.undos && s.undos[u].phase.Marking? && u in t.undos && t.undos[u].phase.Compensating?
    && var id := s.undos[u].id;
    && (forall entry :: UndoneBy(t.journal, entry, s.undos[u].phase.undoId) <==> entry == id)
    && id in t.journal && t.undos[u].phase.rest == PlanOf(t.journal[id].kind, t.journal[id].payload)
    && CallsFor(t.log, id) == []
  }

  lemma {:induction false} WonMark(s: System, t: System, u: nat, now: real)
    requires Marks(s, t, u, now)
    ensures StartsThePlan(s, t, u)
  {
    var id, undoId := s.undos[u].id, s.undos[u].phase.undoId;
    forall entry ensures UndoneBy(t.journal, entry, undoId) <==> entry == id {
      assert !UndoneBy(s.journal, entry, undoId);
    }
  }

  /** Winning the compare-and-set gives the entry an undo id that no other entry has, and sets
      out on its whole plan with no call made before; losing it ends the request. */
  lemma {:induction false} WinnerStartsThePlan(c: Config, s: System, t: System, u: nat, now: real)
    requires u in s.undos && DoUndoMark(s, u, now) == Some(t) && GateOk(c, s) && RecordsOk(s)
    ensures if Undoes(s.journal, s.undos[u].id) then StartsThePlan(s, t, u)
            else t.journal == s.journal && u in t.undos && t.undos[u].phase == Closed
  {
    MarkingMarks(s, t, u, now);
    if Undoes(s.journal, s.undos[u].id) {
      WonMark(s, t, u, now);
    }
  }

  /** What one compensating call of undo `u` does, whether it succeeds or not. */
  ghost predicate CallsOne(s: System, t: System, u: nat, e: LogEvent, next: UndoPhase) {
    && s.mode.Serving? && u in s.undos && s.undos[u].phase.Compensating? && s.undos[u].phase.rest != []
    && e == Compensated(s.undos[u].id, s.undos[u].phase.undoId, s.undos[u].phase.rest[0])
    && (next == Closed || next == s.undos[u].phase.(rest := s.undos[u].phase.rest[1..]))
    && t == s.(undos := s.undos[u := s.undos[u].(phase := next)], log := s.log + [e])
  }

  lemma {:induction false} CallingUndoOk(s: System, t: System, u: nat, e: LogEvent, next: UndoPhase)
    requires CallsOne(s, t, u, e, next) && UndoOk(s, s.undos[u])
    ensures UndoOk(t, t.undos[u])
  {
    var rest := s.undos[u].phase.rest;
    CallsForSelf(s.log, e, s.undos[u].id);
    assert rest == [rest[0]] + rest[1..];
  }

  lemma {:induction false} OtherUndoOk(s: System, t: System, u: nat, e: LogEvent, next: UndoPhase, v: nat)
    requires UndosOk(s) && CallsOne(s, t, u, e, next) && v in s.undos && v != u
    ensures UndoOk(t, t.undos[v])
  {
    assert UndoOk(s, s.undos[u]) && UndoOk(s, s.undos[v]);
    assert UndoIdOf(s.undos[v]) != UndoIdOf(s.undos[u]);
    if s.undos[v].phase.Compensating? {
      CallsForOther(s.log, e, s.undos[v].id);
    }
  }

  lemma {:induction false} CalledUndosOk(s: System, t: System, u: nat, e: LogEvent, next: UndoPhase)
    requires UndosOk(s) && CallsOne(s, t, u, e, next)
    ensures UndosOk(t)
  {
    forall v | v in t.undos ensures UndoOk(t, t.undos[v]) {
      if v == u { CallingUndoOk(s, t, u, e, next); } else { OtherUndoOk(s, t, u, e, next, v); }
    }
  }

  lemma {:induction false} SplitPlan(made: seq<ToolCall>, rest: seq<ToolCall>, plan: seq<ToolCall>)
    requires made + rest == plan && rest != []
    ensures made <= plan && |made| < |plan|
    ensures made + [rest[0]] == plan[..|made| + 1] && made + [rest[0]] <= plan && rest[1..] == plan[|made| + 1..]
  {
    assert rest == [rest[0]] + rest[1..];
    assert plan == (made + [rest[0]]) + rest[1..];
  }

  /** The calls made so far stay a prefix of the plan. */
  lemma {:induction false} CalledEntryOk(s: System, t: System, u: nat, e: LogEvent, next: UndoPhase, a: string)
    requires CallsOne(s, t, u, e, next) && UndoOk(s, s.undos[u]) && a in s.journal
    requires EntryOk(s.actions, s.log, s.issued, a, s.journal[a])
    ensures EntryOk(t.actions, t.log, t.issued, a, t.journal[a])
  {
    var entry := s.journal[a];
    if a == s.undos[u].id {
      CallsForSelf(s.log, e, a);
      SplitPlan(CallsFor(s.log, a), s.undos[u].phase.rest, PlanOf(entry.kind, entry.payload));
    } else {
      CallsForOther(s.log, e, a);
    }
  }

  lemma {:induction false} CalledJournalOk(s: System, t: System, u: nat, e: LogEvent, next: UndoPhase)
    requires JournalOk(s.actions, s.journal, s.log, s.issued) && CallsOne(s, t, u, e, next) && UndoOk(s, s.undos[u])
    ensures JournalOk(t.actions, t.journal, t.log, t.issued)
  {
    forall a | a in t.journal ensures EntryOk(t.actions, t.log, t.issued, a, t.journal[a]) {
      CalledEntryOk(s, t, u, e, next, a);
    }
  }

  lemma {:induction false} CalledLogOk(s: System, t: System, u: nat, e: LogEvent, next: UndoPhase)
    requires LogOk(s.actions, s.journal, s.log) && ForwardsOk(s.log, s.calls)
    requires CallsOne(s, t, u, e, next) && UndoOk(s, s.undos[u])
    ensures LogOk(t.actions, t.journal, t.log) && ForwardsOk(t.log, t.calls)
  {
  }

  lemma {:induction false} OneCallKeepsRecords(s: System, t: System, u: nat, e: LogEvent, next: UndoPhase)
    requires RecordsOk(s) && CallsOne(s, t, u, e, next)
    ensures RecordsOk(t)
  {
    assert UndoOk(s, s.undos[u]);
    CalledUndosOk(s, t, u, e, next);
    CalledJournalOk(s, t, u, e, next);
    CalledLogOk(s, t, u, e, next);
  }

  lemma {:induction false} UndoCallKeepsRecords(s: System, t: System, u: nat, ok: bool)
    requires RecordsOk(s) && DoUndoCall(s, u, ok) == Some(t)
    ensures RecordsOk(t)
  {
    var phase := s.undos[u].phase;
    OneCallKeepsRecords(s, t, u, Compensated(s.undos[u].id, phase.undoId, phase.rest[0]),
      if ok then phase.(rest := phase.rest[1..]) else Closed);
  }

  lemma {:induction false} OneMoreCall(s: System, t: System, u: nat, ok: bool)
    requires DoUndoCall(s, u, ok) == Some(t) && UndoOk(s, s.undos[u])
    ensures var id := s.undos[u].id; var plan := PlanOf(s.journal[id].kind, s.journal[id].payload);
      var n := |CallsFor(s.log, id)|;
      && CallsFor(s.log, id) <= plan && n < |plan| && CallsFor(t.log, id) == plan[..n + 1]
      && (if ok then t.undos[u].phase == s.undos[u].phase.(rest := plan[n + 1..]) else t.undos[u].phase == Closed)
  {
    var id, phase := s.undos[u].id, s.undos[u].phase;
    SplitPlan(CallsFor(s.log, id), phase.rest, PlanOf(s.journal[id].kind, s.journal[id].payload));
    CallsForSelf(s.log, Compensated(id, phase.undoId, phase.rest[0]), id);
  }

  /** Each compensating call is the next one of the plan after those already made, whether it
      succeeds or not; after a failure there is no further one. */
  lemma {:induction false} NextOfThePlan(c: Config, s: System, t: System, u: nat, ok: bool)
    requires Inv(c, s) && DoUndoCall(s, u, ok) == Some(t)
    ensures s.undos[u].id in s.journal
    ensures var id := s.undos[u].id; var plan := PlanOf(s.journal[id].kind, s.journal[id].payload);
      var n := |CallsFor(s.log, id)|;
      && CallsFor(s.log, id) <= plan && n < |plan| && CallsFor(t.log, id) == plan[..n + 1]
      && (if ok then t.undos[u].phase == s.undos[u].phase.(rest := plan[n + 1..]) else t.undos[u].phase == Closed)
  {
    assert UndoOk(s, s.undos[u]);
    OneMoreCall(s, t, u, ok);
  }

  /** The undo row goes in under the reserved id. */
  ghost predicate RowRecorded(c: Config, s: System, t: System, u: nat, undoId: string) {
    && s.mode.Serving? && u in s.undos && UndoIdOf(s.undos[u]) == Some(undoId)
    && Reserved(s.actions, s.calls, s.issued, undoId) && UndoneBy(s.journal, s.undos[u].id, undoId)
    && t == s.(actions := t.actions, undos := s.undos[u := s.undos[u].(phase := AnnouncingUndo(undoId))])
    && undoId in t.actions && t.actions == s.actions[undoId := t.actions[undoId]]
    && RowsOk(c, t.actions) && Evolves(s.actions, t.actions)
  }

  lemma {:induction false} RecordingRecords(c: Config, s: System, t: System, u: nat, now: real)
    requires RowsOk(c, s.actions) && UndosOk(s) && DoUndoRecord(s, u, now) == Some(t)
    ensures RowRecorded(c, s, t, u, s.undos[u].phase.undoId)
  {
    assert UndoOk(s, s.undos[u]);
    InsertEvolves(s.actions, UndoRow(s.undos[u], s.undos[u].phase.row, s.undos[u].phase.undoId,
      s.undos[u].phase.total, now));
  }

  lemma {:induction false} RecordedUndosOk(c: Config, s: System, t: System, u: nat, undoId: string)
    requires UndosOk(s) && RowRecorded(c, s, t, u, undoId)
    ensures UndosOk(t)
  {
    forall v | v in t.undos ensures UndoOk(t, t.undos[v]) {
      assert UndoOk(s, s.undos[v]);
      if v != u {
        assert UndoIdOf(s.undos[v]) != Some(undoId);
      }
    }
  }

  lemma {:induction false} RecordedRowsOk(c: Config, s: System, t: System, u: nat, undoId: string)
    requires UndoRowsOk(s.actions, s.journal) && RowRecorded(c, s, t, u, undoId)
    ensures UndoRowsOk(t.actions, t.journal)
  {
    forall row | row in t.actions && t.actions[row].ruleId == UNDO_RULE
      ensures exists entry :: UndoneBy(t.journal, entry, row) {
      if row == undoId {
        assert UndoneBy(t.journal, s.undos[u].id, undoId);
      } else {
        assert s.actions[row].ruleId == UNDO_RULE;
      }
    }
  }

  lemma {:induction false} RecordKeepsRecords(c: Config, s: System, t: System, u: nat, undoId: string)
    requires RecordsOk(s) && RowRecorded(c, s, t, u, undoId)
    ensures RecordsOk(t)
  {
    LogFrame(s.actions, s.journal, t.actions, t.journal, s.log);
    JournalFrame(s, t);
    RecordedUndosOk(c, s, t, u, undoId);
    RecordedRowsOk(c, s, t, u, undoId);
  }

  lemma {:induction false} RecordKeepsGate(c: Config, s: System, t: System, u: nat, undoId: string)
    requires GateOk(c, s) && RowRecorded(c, s, t, u, undoId)
    ensures GateOk(c, t)
  {
    HoldsFrame(s.actions, t.actions, s.holds);
    CallsFrame(c, s.actions, t.actions, s.holds, s.calls);
    DecisionsFrame(s.actions, t.actions, s.decisions);
  }

  /** All undo steps but the insert of the undo row leave rows, events and other coroutines alone. */
  lemma {:induction false} UndoStepFrame(s: System, step: UndoStep, t: System)
    requires TakeUndo(s, step) == Some(t) && !step.UndoRecord?
    ensures s.mode.Serving? && s.issued <= t.issued
    ensures t == s.(journal := t.journal, undos := t.undos, issued := t.issued, log := t.log)
  {
  }

  lemma {:induction false} GateFrame(c: Config, s: System, t: System)
    requires GateOk(c, s) && s.mode.Serving? && s.issued <= t.issued
    requires t == s.(journal := t.journal, undos := t.undos, issued := t.issued, log := t.log)
    ensures GateOk(c, t)
  {
  }

  lemma {:induction false} UndoStepKeepsRecords(s: System, step: UndoStep, t: System)
    requires RecordsOk(s) && IdsOk(s) && TakeUndo(s, step) == Some(t) && !step.UndoRecord?
    ensures RecordsOk(t)
  {
    match step
    case UndoFetch(u, undoId) =>
      FreshIsNoUndo(s, undoId);
      FetchMoves(s, t, u, undoId);
      UndoMoveKeepsRecords(s, t, u);
    case UndoMark(u, now) =>
      MarkingMarks(s, t, u, now);
      if Undoes(s.journal, s.undos[u].id) { MarkKeepsRecords(s, t, u, now); } else { UndoMoveKeepsRecords(s, t, u); }
    case UndoCall(u, ok) => UndoCallKeepsRecords(s, t, u, ok);
    case _ =>
      PlainUndoMoves(s, step, t);
      UndoMoveKeepsRecords(s, t, step.u);
  }

  lemma {:induction false} UndoStepKeeps(c: Config, s: System, step: UndoStep, t: System)
    requires GateOk(c, s) && RecordsOk(s) && TakeUndo(s, step) == Some(t)
    ensures Inv(c, t)
  {
    if step.UndoRecord? {
      RecordingRecords(c, s, t, step.u, step.now);
      RecordKeepsGate(c, s, t, step.u, s.undos[step.u].phase.undoId);
      RecordKeepsRecords(c, s, t, step.u, s.undos[step.u].phase.undoId);
    } else {
      UndoStepFrame(s, step, t);
      GateFrame(c, s, t);
      UndoStepKeepsRecords(s, step, t);
    }
  }

  // ---- Crash, restart, and the novel flag -------------------------------------

  /** The process is gone or starting: no coroutine is alive, rows may expire. */
  ghost predicate SystemMoves(c: Config, s: System, t: System) {
    && t.journal == s.journal && t.issued == s.issued && GrowsQuietly(s, t)
    && Evolves(s.actions, t.actions) && t.actions.Keys == s.actions.Keys && RowsOk(c, t.actions)
    && (t.calls == s.calls || t.calls == map[]) && (t.undos == s.undos || t.undos == map[])
    && (t.decisions == s.decisions || t.decisions == map[])
    && (t.holds == s.holds || (t.holds == NO_HOLDS && t.calls == map[]))
    && ModeOk(t)
  }

  lemma {:induction false} SystemMoveKeepsGate(c: Config, s: System, t: System)
    requires GateOk(c, s) && SystemMoves(c, s, t)
    ensures GateOk(c, t)
  {
    HoldsFrame(s.actions, t.actions, s.holds);
    CallsFrame(c, s.actions, t.actions, s.holds, s.calls);
    DecisionsFrame(s.actions, t.actions, s.decisions);
  }

  lemma {:induction false} FewerCoroutines(s: System, t: System)
    requires RecordsOk(s) && t == s.(calls := t.calls, undos := t.undos)
    requires (t.calls == s.calls || t.calls == map[]) && (t.undos == s.undos || t.undos == map[])
    ensures RecordsOk(t)
  {
    assert forall u :: u in t.undos && UndoOk(s, s.undos[u]) ==> UndoOk(t, t.undos[u]);
    assert UndoRowsOk(t.actions, t.journal);
  }

  lemma {:induction false} SystemMoveKeepsRecords(c: Config, s: System, t: System)
    requires RecordsOk(s) && SystemMoves(c, s, t)
    ensures RecordsOk(t)
  {
    var u := t.(calls := s.calls, undos := s.undos);
    QuietForwards(s, u);
    RecordsFrame(s, u);
    FewerCoroutines(u, t);
  }

  lemma {:induction false} SweptAtRestart(c: Config, s: System, todo: seq<Action>)
    requires RowsOk(c, s.actions) && Lists(todo, s.actions, Some(PENDING))
    ensures Swept(s.actions, seq(|todo|, i requires 0 <= i < |todo| => todo[i].actionId), false)
  {
    var ids := seq(|todo|, i requires 0 <= i < |todo| => todo[i].actionId);
    assert forall i :: 0 <= i < |todo| ==> todo[i] in todo && ids[i] == todo[i].actionId;
    forall id | id in s.actions && s.actions[id].status == PENDING ensures id in ids {
      assert RowOk(c, id, s.actions[id]) && s.actions[id] in todo;
      var i :| 0 <= i < |todo| && todo[i] == s.actions[id];
      assert ids[i] == id;
    }
  }

  lemma {:induction false} RecoverRowMoves(c: Config, s: System, t: System)
    requires GateOk(c, s) && DoRecoverRow(s) == Some(t)
    ensures SystemMoves(c, s, t)
  {
    ResolveKeepsRows(c, s.actions, s.mode.todo[0], Expired(s.mode.at));
  }

  lemma {:induction false} RecoverAnnounceMoves(c: Config, s: System, t: System)
    requires GateOk(c, s) && DoRecoverAnnounce(s) == Some(t)
    ensures SystemMoves(c, s, t)
  {
    var todo := s.mode.todo;
    assert todo == [todo[0]] + todo[1..];
  }

  lemma {:induction false} FlagNovelMoves(c: Config, s: System, t: System, id: string)
    requires GateOk(c, s) && DoFlagNovel(s, id) == Some(t)
    ensures SystemMoves(c, s, t)
  {
    MarkNovelEvolves(s.actions, id);
  }

  lemma {:induction false} ServeMoves(c: Config, s: System, t: System)
    requires GateOk(c, s) && DoServe(s) == Some(t)
    ensures SystemMoves(c, s, t)
    ensures forall id :: id in t.actions ==> t.actions[id].status != PENDING
  {
  }

  lemma {:induction false} SystemStepMoves(c: Config, s: System, step: SystemStep, t: System)
    requires GateOk(c, s) && TakeSystem(s, step) == Some(t)
    ensures SystemMoves(c, s, t)
  {
    match step
    case FlagNovel(id) => FlagNovelMoves(c, s, t, id);
    case Crash =>
    case Restart(todo, now) => SweptAtRestart(c, s, todo);
    case RecoverRow => RecoverRowMoves(c, s, t);
    case RecoverAnnounce => RecoverAnnounceMoves(c, s, t);
    case Serve => ServeMoves(c, s, t);
  }

  lemma {:induction false} SystemStepKeeps(c: Config, s: System, step: SystemStep, t: System)
    requires GateOk(c, s) && RecordsOk(s) && TakeSystem(s, step) == Some(t)
    ensures Inv(c, t)
  {
    SystemStepMoves(c, s, step, t);
    SystemMoveKeepsGate(c, s, t);
    SystemMoveKeepsRecords(c, s, t);
  }

  // ---- Every step -------------------------------------------------------------

  /** Every step of the protocol keeps the invariant. */
  lemma {:induction false} StepKeeps(c: Config, s: System, step: Step, t: System)
    requires Inv(c, s) && Take(c, s, step) == Some(t)
    ensures Inv(c, t)
  {
    match step
    case OfCall(m) => CallStepKeeps(c, s, m, t);
    case OfDecision(m) => DecisionStepKeeps(c, s, m, t);
    case OfUndo(m) => UndoStepKeeps(c, s, m, t);
    case OfSystem(m) => SystemStepKeeps(c, s, m, t);
  }
}
