/** `api/routes.py`: the undo endpoint and the action listing, over the store and the tool
    servers. What happens when requests interleave is the Lifecycle module's subject; these
    methods are what one request does when it runs alone. */
module Routes {
  import opened Records
  import opened Literals
  import opened Tables
  import opened Tools
  import opened Compensation
  import opened Lifecycle
  import opened LifecycleTheorems
  import StoreModule

  /** How the endpoint answers. */
  datatype Answer =
    | UnknownAction404
    | NeverExecuted409
    | NothingJournaled404
    | AlreadyUndone409
    | NoUpstream503
    | CompensationFailed502(at: nat)
    | BuildFailed500
    | Undone200(row: Action)

  /** The guards before the compare-and-set, in order; None when all pass. */
  function Guard(t: ActionTable, j: JournalTable, id: string): Option<Answer> {
    if id !in t then Some(UnknownAction404)
    else if t[id].status != APPROVED && t[id].status != AUTO_ALLOWED then Some(NeverExecuted409)
    else if id !in j then Some(NothingJournaled404)
    else if j[id].undoneAt.Some? then Some(AlreadyUndone409)
    else None
  }

  datatype ListedAction = ListedAction(row: Action, undoable: bool)

  /** One entry per listed row, in order, with the flag the tables give it. */
  ghost predicate Flagged(out: seq<ListedAction>, rows: seq<Action>, t: ActionTable, j: JournalTable) {
    |out| == |rows| && forall i :: 0 <= i < |out| ==>
      out[i].row == rows[i] && (out[i].undoable <==> Undoable(t, j, rows[i].actionId))
  }

  /** The answers of the guards. */
  predicate Refused(answer: Answer) {
    answer.UnknownAction404? || answer.NeverExecuted409? || answer.NothingJournaled404? || answer.AlreadyUndone409?
  }

  /** The row that a compensation leaves, in the trace and the name of the agent it helps. */
  predicate RecordsUndo(row: Action, undone: Action, id: string, undoId: string, decidedBy: string, calls: nat,
      now: real)
  {
    && row.actionId == undoId && row.traceId == undone.traceId && row.agentId == undone.agentId
    && row.tool == "undo:" + undone.tool && row.resourceName == undone.resourceName
    && row.argsSummary == Some("{\"undo_of\": \"" + id + "\", \"calls\": " + PrintNat(calls) + "}")
    && row.riskLevel == undone.riskLevel && row.ruleId == "UNDO-COMPENSATION" && row.status == APPROVED
    && row.decidedBy == Some(decidedBy) && row.requestedAt == now && row.resolvedAt == Some(now)
    && row.reversibility == IRREVERSIBLE && row.blastRadius == None && !row.novel
  }

  class Api {
    const store: StoreModule.Store
    const tools: ToolServers?  // null while there is no upstream pool

    constructor (store: StoreModule.Store, tools: ToolServers?)
      ensures this.store == store && this.tools == tools
    {
      this.store, this.tools := store, tools;
    }

    /** `undo_action`. A refused request changes nothing, and neither does one that passes the
        guards and finds no upstream pool. Any other request marks the entry for good, whatever
        happens next; it adds the undo row only if every compensating call went through. */
    method UndoAction(id: string, decidedBy: string, undoId: string, undoneAt: real, now: real) returns (answer: Answer)
      requires undoId !in store.actions
      modifies store, tools
      ensures Refused(answer) <==> !Undoable(old(store.actions), old(store.journal), id)
      ensures answer.NoUpstream503? <==> Undoable(old(store.actions), old(store.journal), id) && tools == null
      ensures Refused(answer) ==> Guard(old(store.actions), old(store.journal), id) == Some(answer)
      ensures answer.UnknownAction404? <==> id !in old(store.actions)
      ensures answer.NeverExecuted409? <==>
        id in old(store.actions) && old(store.actions)[id].status in {PENDING, DENIED, EXPIRED}
      ensures answer.NothingJournaled404? ==> id !in old(store.journal)
      ensures answer.AlreadyUndone409? ==> id in old(store.journal) && old(store.journal)[id].undoneAt != None
      ensures Refused(answer) || answer.NoUpstream503? ==>
        && store.actions == old(store.actions) && store.journal == old(store.journal)
        && (tools != null ==> tools.Contents() == old(tools.Contents()))
      ensures !Refused(answer) && !answer.NoUpstream503? ==>
        && store.journal == Tables.MarkUndone(old(store.journal), id, undoId, undoneAt)
        && var built := BuildCompensation(old(store.journal)[id].kind, old(store.journal)[id].payload);
        && (built.Err? ==>
              answer == BuildFailed500 && store.actions == old(store.actions)
                && tools.Contents() == old(tools.Contents()))
        && (built.Ok? ==>
              && tools.Contents() == AfterCalls(tools.platform, old(tools.Contents()), built.value)
              && (CallsFail(tools.platform, old(tools.Contents()), built.value) ==>
                    && answer.CompensationFailed502? && store.actions == old(store.actions)
                    && FirstFailure(tools.platform, old(tools.Contents()), built.value, answer.at))
              && (!CallsFail(tools.platform, old(tools.Contents()), built.value) ==>
                    && answer.Undone200? && store.actions == old(store.actions)[undoId := answer.row]
                    && answer.row == UndoRow(Undo(id, decidedBy, Fetching), old(store.actions)[id], undoId,
                      |built.value|, now)
                    && RecordsUndo(answer.row, old(store.actions)[id], id, undoId, decidedBy, |built.value|, now)))
    {
      var action := store.GetAction(id);
      if action.None? {
        return UnknownAction404;
      }
      if action.value.status != APPROVED && action.value.status != AUTO_ALLOWED {
        return NeverExecuted409;
      }
      var entry := store.GetJournal(id);
      if entry.None? {
        return NothingJournaled404;
      }
      if entry.value.undoneAt.Some? {
        return AlreadyUndone409;
      }
      if tools == null {
        return NoUpstream503;
      }
      var won := store.MarkUndone(id, undoId, undoneAt);
      if !won {
        return AlreadyUndone409;
      }
      var built := BuildCompensation(entry.value.kind, entry.value.payload);
      if built.Err? {
        return BuildFailed500;
      }
      var failedAt := tools.RunCompensation(built.value);
      if failedAt.Some? {
        return CompensationFailed502(failedAt.value);
      }
      var row := UndoRow(Undo(id, decidedBy, Fetching), action.value, undoId, |built.value|, now);
      var ok := store.InsertAction(row);
      answer := Undone200(row);
    }

    /** `list_actions` of the API: every listed row with its undoable flag. */
    method ListActions(status: Option<Status>) returns (out: seq<ListedAction>)
      requires Indexed(store.actions)
      ensures exists rows :: Lists(rows, store.actions, status) && Flagged(out, rows, store.actions, store.journal)
    {
      var actions := store.ListActions(status);
      var journaled := store.ListJournaledActionIds();
      out := [];
      for n := 0 to |actions|
        invariant |out| == n
        invariant Flagged(out, actions[..n], store.actions, store.journal)
      {
        var a := actions[n];
        assert a in actions;
        var undoable := a.actionId in journaled && !journaled[a.actionId] && (a.status == APPROVED
          || a.status == AUTO_ALLOWED);
        out := out + [ListedAction(a, undoable)];
      }
      assert actions[..|actions|] == actions;
    }
  }
}
