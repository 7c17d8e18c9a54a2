/** `store/db.py`: the store as an object whose methods run one statement each. */
module StoreModule {
  import opened Records
  import opened Tables

  function Grown(rows: seq<Action>, row: Action, at: nat): seq<Action>
    requires at <= |rows|
  {
    rows[..at] + [row] + rows[at..]
  }

  lemma {:induction false} GrownOrder(rows: seq<Action>, row: Action, at: nat)
    requires NewestFirst(rows) && at <= |rows|
    requires forall i :: 0 <= i < at ==> rows[i].requestedAt >= row.requestedAt
    requires at < |rows| ==> rows[at].requestedAt <= row.requestedAt
    ensures NewestFirst(Grown(rows, row, at))
  {
    forall i, j | 0 <= i < j < |rows| + 1
      ensures Grown(rows, row, at)[i].requestedAt >= Grown(rows, row, at)[j].requestedAt
    {
      if i == at && j > at + 1 { assert rows[at].requestedAt >= rows[j - 1].requestedAt; }
    }
  }

  lemma {:induction false} GrownIds(rows: seq<Action>, row: Action, at: nat)
    requires DistinctIds(rows) && at <= |rows|
    requires forall i :: 0 <= i < |rows| ==> rows[i].actionId != row.actionId
    ensures DistinctIds(Grown(rows, row, at))
  {
  }

  lemma {:induction false} GrownMembers(rows: seq<Action>, row: Action, at: nat)
    requires at <= |rows|
    ensures forall r :: r in Grown(rows, row, at) <==> r in rows || r == row
  {
    assert rows == rows[..at] + rows[at..];
  }

  lemma {:induction false} RowsAreListed(rows: seq<Action>, t: ActionTable, status: Option<Status>, row: Action)
    requires OnlyRowsOf(rows, t, status) && row.actionId !in t
    ensures forall i :: 0 <= i < |rows| ==> rows[i].actionId != row.actionId
  {
    assert forall i :: 0 <= i < |rows| ==> rows[i] in rows;
  }

  lemma {:induction false} SkippedAt(rows: seq<Action>, t: ActionTable, status: Option<Status>, row: Action)
    requires Lists(rows, t, status) && row.actionId !in t && !Selected(row, status)
    ensures Lists(rows, t[row.actionId := row], status)
  {
  }

  lemma {:induction false} InsertedAt(rows: seq<Action>, t: ActionTable, status: Option<Status>, row: Action, at: nat)
    requires Lists(rows, t, status) && row.actionId !in t && at <= |rows|
    requires Selected(row, status)
    requires forall i :: 0 <= i < at ==> rows[i].requestedAt >= row.requestedAt
    requires at < |rows| ==> rows[at].requestedAt <= row.requestedAt
    ensures Lists(Grown(rows, row, at), t[row.actionId := row], status)
  {
    GrownOrder(rows, row, at);
    GrownMembers(rows, row, at);
    RowsAreListed(rows, t, status, row);
    GrownIds(rows, row, at);
  }

  /** One row more in a listing: after every row that is not older. */
  method Place(rows: seq<Action>, row: Action, ghost t: ActionTable, status: Option<Status>)
      returns (grown: seq<Action>)
    requires Lists(rows, t, status) && row.actionId !in t && Selected(row, status)
    ensures Lists(grown, t[row.actionId := row], status)
  {
    var at := 0;
    while at < |rows| && rows[at].requestedAt >= row.requestedAt
      invariant 0 <= at <= |rows|
      invariant forall i :: 0 <= i < at ==> rows[i].requestedAt >= row.requestedAt
    {
      at := at + 1;
    }
    InsertedAt(rows, t, status, row, at);
    grown := Grown(rows, row, at);
  }

  class Store {
    var actions: ActionTable
    var journal: JournalTable

    constructor ()
      ensures actions == map[] && journal == map[]
    {
      actions, journal := map[], map[];
    }

    /** `ok` is false where SQLite raises on a taken primary key. */
    method InsertAction(row: Action) returns (ok: bool)
      modifies this`actions
      ensures ok <==> row.actionId !in old(actions)
      ensures ok ==> Tables.InsertAction(old(actions), row) == Option.Some(actions)
      ensures ok ==> actions == old(actions)[row.actionId := row]
      ensures !ok ==> actions == old(actions)
    {
      ok := row.actionId !in actions;
      if ok {
        actions := actions[row.actionId := row];
      }
    }

    method GetAction(id: string) returns (row: Option<Action>)
      ensures row == if id in actions then Some(actions[id]) else None
    {
      if id in actions {
        row := Some(actions[id]);
      } else {
        row := None;
      }
    }

    /** The compare-and-set: `won` tells whether this call resolved the row. */
    method ResolveAction(id: string, o: Outcome) returns (won: bool)
      modifies this`actions
      ensures won <==> Resolves(old(actions), id)
      ensures actions == Tables.ResolveAction(old(actions), id, o)
      ensures won <==> id in old(actions) && old(actions)[id].status == PENDING
      ensures won ==>
        && id in actions && actions == old(actions)[id := actions[id]]
        && OutcomeOf(actions[id]) == o && SameRequest(old(actions)[id], actions[id])
      ensures !won ==> actions == old(actions)
    {
      won := id in actions && actions[id].status == PENDING;
      if won {
        actions := actions[id := actions[id].(status := o.status, decidedBy := o.decidedBy,
          resolvedAt := o.resolvedAt)];
      }
    }

    method MarkNovel(id: string)
      modifies this`actions
      ensures actions == Tables.MarkNovel(old(actions), id)
      ensures id in old(actions) ==> actions == old(actions)[id := old(actions)[id].(novel := true)]
    {
      if id in actions {
        actions := actions[id := actions[id].(novel := true)];
      }
    }

    method InsertJournal(id: string, kind: string, payload: Payload, at: real)
      modifies this`journal
      ensures journal == Tables.InsertJournal(old(journal), id, kind, payload, at)
      ensures id in old(journal) ==> journal == old(journal)
      ensures id !in old(journal) ==>
        journal == old(journal)[id := JournalEntry(id, kind, payload, at, None, None)]
    {
      if id !in journal {
        journal := journal[id := JournalEntry(id, kind, payload, at, None, None)];
      }
    }

    method GetJournal(id: string) returns (entry: Option<JournalEntry>)
      ensures entry == if id in journal then Some(journal[id]) else None
    {
      if id in journal {
        entry := Some(journal[id]);
      } else {
        entry := None;
      }
    }

    method MarkUndone(id: string, undoId: string, at: real) returns (won: bool)
      modifies this`journal
      ensures won <==> Undoes(old(journal), id)
      ensures journal == Tables.MarkUndone(old(journal), id, undoId, at)
      ensures won <==> id in old(journal) && old(journal)[id].undoneAt == None
      ensures won ==>
        journal == old(journal)[id := old(journal)[id].(undoneAt := Some(at), undoActionId := Some(undoId))]
      ensures !won ==> journal == old(journal)
    {
      won := id in journal && journal[id].undoneAt.None?;
      if won {
        journal := journal[id := journal[id].(undoneAt := Some(at), undoActionId := Some(undoId))];
      }
    }

    /** SELECT ... ORDER BY requested_at DESC, as an insertion of every selected row in order. */
    method ListActions(status: Option<Status>) returns (rows: seq<Action>)
      requires Indexed(actions)
      ensures Lists(rows, actions, status)
      ensures status == None ==> forall id :: id in actions ==> actions[id] in rows
      ensures status != None ==>
        forall id :: id in actions ==> (actions[id] in rows <==> actions[id].status == status.value)
    {
      rows := [];
      var todo := actions.Keys;
      ghost var done: ActionTable := map[];
      while todo != {}
        invariant todo <= actions.Keys
        invariant done == map id | id in actions && id !in todo :: actions[id]
        invariant Lists(rows, done, status)
        decreases todo
      {
        var id :| id in todo;
        var row := actions[id];
        if Selected(row, status) {
          rows := Place(rows, row, done, status);
        } else {
          SkippedAt(rows, done, status, row);
        }
        todo := todo - {id};
        done := done[id := row];
      }
      assert done == actions;
    }

    /** Every journaled id; an id is listed as not undone exactly when the compare-and-set of
        an undo request would win on it now. */
    method ListJournaledActionIds() returns (ids: map<string, bool>)
      ensures ids.Keys == journal.Keys
      ensures forall id :: id in ids && !ids[id] <==> Undoes(journal, id)
    {
      ids := map id | id in journal :: journal[id].undoneAt.Some?;
    }
  }
}
