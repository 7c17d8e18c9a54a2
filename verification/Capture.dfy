/** `gateway/journal.py`: what a compensable call is about to destroy. */
module Capture {
  import opened Records
  import opened Literals
  import opened Database
  import opened Tables
  import opened Tools
  import StoreModule

  /** A call on its way to execution, its SQL already parsed. */
  datatype ApprovedCall =
    | WriteFile(path: string, content: string)
    | RemoveFile(path: string)
    | RunSql(statement: Statement)
    | OtherCall

  datatype Preimage = Preimage(kind: string, payload: Payload)

  /** The JSON form of a stored value; `Stored` takes it back. */
  function ToJson(v: SqlValue): JsonValue {
    match v
    case Null => JsonNull
    case Int(i) => JsonInt(i)
    case Text(s) => JsonText(s)
  }

  function ToJsonRow(columns: seq<string>, row: Row): JsonRow {
    seq(|columns|, i requires 0 <= i < |columns| => Cell(columns[i], ToJson(At(row, i))))
  }

  function ToJsonRows(columns: seq<string>, rows: seq<Row>): seq<JsonRow> {
    seq(|rows|, i requires 0 <= i < |rows| => ToJsonRow(columns, rows[i]))
  }

  function FilePreimage(p: Platform, w: World, path: string): Option<Preimage> {
    if path == "" then None
    else
      var text := ReadAnswer(p, w.files, path);
      Some(Preimage(KIND_FS, FilePayload(path, if IsError(text) then None else Some(text))))
  }

  /** The schema text of DROP TABLE is looked up under the reference as rendered, so a
      quoted reference finds nothing. */
  function SchemaOf(w: World, s: Statement): Option<string>
    requires s.DropTable?
  {
    var name := Spelled(s.table, s.quoted);
    if name in w.db then Some(w.db[name].createSql) else None
  }

  /** The pre-image from the rows read now and, for a DROP TABLE, the schema text read before. */
  function StatementImage(w: World, s: Statement, schema: Option<string>): Option<Preimage> {
    match RowsQuery(s)
    case None => None
    case Some(q) =>
      if s.DropTable? && schema.None? then None
      else
        match Answer(q, w.db)
        case None => None
        case Some(rows) =>
          var captured := ToJsonRows(w.db[q.table].columns, rows);
          var reference := Spelled(s.table, s.quoted);
          if s.DropTable? then Some(Preimage(KIND_DB_TABLE, TablePayload(reference, schema.value, captured)))
          else Some(Preimage(KIND_DB_ROWS, RowsPayload(reference, captured)))
  }

  function StatementPreimage(w: World, s: Statement): Option<Preimage> {
    StatementImage(w, s, if s.DropTable? then SchemaOf(w, s) else None)
  }

  /** The calls that are journaled: a write or delete of a file with a path, an UPDATE or DELETE of a
      table that is there, and a DROP TABLE of one that is there under the reference as written. */
  predicate Journals(w: World, call: ApprovedCall) {
    match call
    case WriteFile(path, _) => path != ""
    case RemoveFile(path) => path != ""
    case RunSql(Update(table, _, _, _)) => table in w.db
    case RunSql(Delete(table, _, _)) => table in w.db
    case RunSql(DropTable(table, quoted)) => table in w.db && Spelled(table, quoted) in w.db
    case RunSql(OtherStatement) => false
    case OtherCall => false
  }

  /** The pre-image `capture` journals, None where it journals nothing. */
  function PreimageOf(p: Platform, w: World, call: ApprovedCall): (pre: Option<Preimage>)
    ensures pre.Some? ==> WellKinded(pre.value.kind, pre.value.payload)
    ensures pre.Some? <==> Journals(w, call)
  {
    match call
    case WriteFile(path, _) => FilePreimage(p, w, path)
    case RemoveFile(path) => FilePreimage(p, w, path)
    case RunSql(s) => StatementPreimage(w, s)
    case OtherCall => None
  }

  predicate DropsTable(call: ApprovedCall) {
    call.RunSql? && call.statement.DropTable?
  }

  /** What the first of the two reads for a DROP TABLE finds; other calls need only one read. */
  function SchemaFor(w: World, call: ApprovedCall): Option<string> {
    if DropsTable(call) then SchemaOf(w, call.statement) else None
  }

  /** The pre-image when the schema text was read before and the rest is read now. */
  function ImageWith(p: Platform, w: World, call: ApprovedCall, schema: Option<string>): Option<Preimage> {
    if call.RunSql? then StatementImage(w, call.statement, schema) else PreimageOf(p, w, call)
  }

  class JournalRecorder {
    const store: StoreModule.Store
    const tools: ToolServers

    constructor (store: StoreModule.Store, tools: ToolServers)
      ensures this.store == store && this.tools == tools
    {
      this.store, this.tools := store, tools;
    }

    /** `capture`: reads the upstream, then inserts one journal row or none. */
    method Capture(actionId: string, call: ApprovedCall, now: real) returns (journaled: bool)
      modifies store`journal
      ensures var pre := PreimageOf(tools.platform, tools.Contents(), call);
        && (journaled <==> pre.Some?)
        && store.journal == if pre.None? then old(store.journal)
                            else Tables.InsertJournal(old(store.journal), actionId, pre.value.kind, pre.value.payload,
                              now)
      ensures journaled <==> Journals(tools.Contents(), call)
      ensures journaled ==> actionId in store.journal
    {
      match call
      case WriteFile(path, _) => journaled := CaptureFs(actionId, path, now);
      case RemoveFile(path) => journaled := CaptureFs(actionId, path, now);
      case RunSql(s) => journaled := CaptureDb(actionId, s, now);
      case OtherCall => journaled := false;
    }

    method CaptureFs(actionId: string, path: string, now: real) returns (journaled: bool)
      modifies store`journal
      ensures var pre := FilePreimage(tools.platform, tools.Contents(), path);
        && (journaled <==> pre.Some?)
        && store.journal == if pre.None? then old(store.journal)
                            else Tables.InsertJournal(old(store.journal), actionId, pre.value.kind, pre.value.payload,
                              now)
    {
      if path == "" {
        return false;
      }
      var text := tools.Read(path);
      var content := if IsError(text) then None else Some(text);
      store.InsertJournal(actionId, KIND_FS, FilePayload(path, content), now);
      journaled := true;
    }

    method CaptureDb(actionId: string, s: Statement, now: real) returns (journaled: bool)
      modifies store`journal
      ensures var pre := StatementPreimage(tools.Contents(), s);
        && (journaled <==> pre.Some?)
        && store.journal == if pre.None? then old(store.journal)
                            else Tables.InsertJournal(old(store.journal), actionId, pre.value.kind, pre.value.payload,
                              now)
    {
      var query := RowsQuery(s);
      if query.None? {
        return false;
      }
      var reference := Spelled(s.table, s.quoted);
      if s.DropTable? {
        if reference !in tools.db {
          return false;
        }
      }
      var answer := Answer(query.value, tools.db);
      if answer.None? {
        return false;
      }
      var rows := ToJsonRows(tools.db[query.value.table].columns, answer.value);
      if s.DropTable? {
        store.InsertJournal(actionId, KIND_DB_TABLE, TablePayload(reference, tools.db[reference].createSql, rows), now);
      } else {
        store.InsertJournal(actionId, KIND_DB_ROWS, RowsPayload(reference, rows), now);
      }
      journaled := true;
    }
  }
}
