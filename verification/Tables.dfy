/** The SQL statements of `store/db.py`, as functions on table values. Each is one
    atomic step of the lifecycle protocol. */
module Tables {
  import opened Records

  type ActionTable = map<string, Action>
  type JournalTable = map<string, JournalEntry>

  /** INSERT INTO actions: None when the primary key is taken. */
  function InsertAction(t: ActionTable, row: Action): Option<ActionTable> {
    if row.actionId in t then None else Some(t[row.actionId := row])
  }

  /** Whether the guarded UPDATE of `resolve_action` touches a row. */
  predicate Resolves(t: ActionTable, id: string) {
    id in t && t[id].status == PENDING
  }

  /** UPDATE actions SET status, decided_by, resolved_at WHERE action_id = id AND status = PENDING */
  function ResolveAction(t: ActionTable, id: string, o: Outcome): ActionTable {
    if Resolves(t, id)
    then t[id := t[id].(status := o.status, decidedBy := o.decidedBy, resolvedAt := o.resolvedAt)]
    else t
  }

  function MarkNovel(t: ActionTable, id: string): ActionTable {
    if id in t then t[id := t[id].(novel := true)] else t
  }

  /** INSERT INTO journal ... ON CONFLICT (action_id) DO NOTHING */
  function InsertJournal(j: JournalTable, id: string, kind: string, payload: Payload, at: real): JournalTable {
    if id in j then j else j[id := JournalEntry(id, kind, payload, at, None, None)]
  }

  /** Whether the guarded UPDATE of `mark_undone` touches a row. */
  predicate Undoes(j: JournalTable, id: string) {
    id in j && j[id].undoneAt.None?
  }

  function MarkUndone(j: JournalTable, id: string, undoId: string, at: real): JournalTable {
    if Undoes(j, id) then j[id := j[id].(undoneAt := Some(at), undoActionId := Some(undoId))] else j
  }

  predicate Selected(row: Action, status: Option<Status>) {
    status.None? || row.status == status.value
  }

  ghost predicate NewestFirst(rows: seq<Action>) {
    forall i, j :: 0 <= i < j < |rows| ==> rows[i].requestedAt >= rows[j].requestedAt
  }

  ghost predicate DistinctIds(rows: seq<Action>) {
    forall i, j :: 0 <= i < j < |rows| ==> rows[i].actionId != rows[j].actionId
  }

  ghost predicate OnlyRowsOf(rows: seq<Action>, t: ActionTable, status: Option<Status>) {
    forall row :: row in rows ==> row.actionId in t && t[row.actionId] == row && Selected(row, status)
  }

  ghost predicate EveryRowOf(rows: seq<Action>, t: ActionTable, status: Option<Status>) {
    forall id :: id in t && Selected(t[id], status) ==> t[id] in rows
  }

  /** `list_actions`: every row with the status (or every row), newest request first. */
  ghost predicate Lists(rows: seq<Action>, t: ActionTable, status: Option<Status>) {
    NewestFirst(rows) && DistinctIds(rows) && OnlyRowsOf(rows, t, status) && EveryRowOf(rows, t, status)
  }

  /** Rows are stored under their own id. */
  ghost predicate Indexed(t: ActionTable) {
    forall id :: id in t ==> t[id].actionId == id
  }

  // ---- How tables may change --------------------------------------------------

  /** A row keeps everything `submit` wrote except its outcome and the novel flag. */
  predicate SameRequest(a: Action, b: Action) {
    a.(status := b.status, decidedBy := b.decidedBy, resolvedAt := b.resolvedAt, novel := b.novel) == b
  }

  /** Rows are never deleted; a row that has left PENDING keeps its outcome for good. */
  ghost predicate Evolves(t: ActionTable, u: ActionTable) {
    forall id :: id in t ==>
      && id in u
      && SameRequest(t[id], u[id])
      && (t[id].status != PENDING ==> OutcomeOf(t[id]) == OutcomeOf(u[id]))
  }

  /** Journal entries keep their first payload, and an undone mark is final. */
  ghost predicate JournalEvolves(j: JournalTable, k: JournalTable) {
    forall id :: id in j ==>
      && id in k
      && k[id].kind == j[id].kind && k[id].payload == j[id].payload && k[id].createdAt == j[id].createdAt
      && (j[id].undoneAt.Some? ==> k[id] == j[id])
  }

  lemma {:induction false} EvolvesTransitive(t: ActionTable, u: ActionTable, v: ActionTable)
    requires Evolves(t, u) && Evolves(u, v)
    ensures Evolves(t, v)
  {
  }

  lemma {:induction false} JournalEvolvesTransitive(j: JournalTable, k: JournalTable, l: JournalTable)
    requires JournalEvolves(j, k) && JournalEvolves(k, l)
    ensures JournalEvolves(j, l)
  {
  }

  lemma {:induction false} InsertEvolves(t: ActionTable, row: Action)
    ensures InsertAction(t, row).Some? ==> Evolves(t, InsertAction(t, row).value)
  {
  }

  lemma {:induction false} ResolveEvolves(t: ActionTable, id: string, o: Outcome)
    ensures Evolves(t, ResolveAction(t, id, o))
  {
  }

  lemma {:induction false} MarkNovelEvolves(t: ActionTable, id: string)
    ensures Evolves(t, MarkNovel(t, id))
  {
  }

  /** Every statement on the actions table only evolves it. */
  lemma {:induction false} StatementsEvolve(t: ActionTable, id: string, o: Outcome)
    ensures Evolves(t, t) && Evolves(t, MarkNovel(t, id)) && Evolves(t, ResolveAction(t, id, o))
    ensures forall row :: InsertAction(t, row).Some? ==> Evolves(t, InsertAction(t, row).value)
  {
    ResolveEvolves(t, id, o);
    MarkNovelEvolves(t, id);
    forall row | InsertAction(t, row).Some? ensures Evolves(t, InsertAction(t, row).value) {
      InsertEvolves(t, row);
    }
  }

  /** Every statement on the journal only evolves it. */
  lemma {:induction false} JournalStatementsEvolve(j: JournalTable, id: string, kind: string, payload: Payload,
      undoId: string, at: real)
    ensures JournalEvolves(j, j) && JournalEvolves(j, InsertJournal(j, id, kind, payload, at))
    ensures JournalEvolves(j, MarkUndone(j, id, undoId, at))
  {
  }
}
