/** Capture, execute, compensate: when the three together are the identity on the world. */
module Restore {
  import opened Records
  import opened Literals
  import opened Database
  import opened Tools
  import opened Compensation
  import opened Capture

  // ---- Worlds -----------------------------------------------------------------

  /** A table whose DDL text declares it, with full rows and distinct non-NULL primary keys. */
  ghost predicate TableOk(p: Platform, name: string, t: Table) {
    && AllWordy(t.columns) && Distinct(t.columns) && t.columns != []
    && (forall i :: 0 <= i < |t.rows| ==> |t.rows[i]| == |t.columns|)
    && Keyed(t.key, t.rows)
    && "CREATE TABLE " <= t.createSql
    && p.ddl(t.createSql) == Some(TableDef(name, t.columns, t.key))
  }

  ghost predicate Refuses(p: Platform, sql: string) {
    p.ddl(sql).None? && forall db :: p.run(sql, db).None?
  }

  /** SQL refuses an INSERT into a table reference when its columns would have to be quoted. */
  ghost predicate RefusesUnquoted(p: Platform) {
    forall name, quoted, row ::
      ValidReference(p.reserved, name, quoted) && AllWordy(Columns(row)) && !PlainNames(p.reserved, Columns(row)) ==>
        Refuses(p, InsertOrReplace(Spelled(name, quoted), row))
  }

  /** The columns can be named without quotes, as the printer does. */
  predicate Printable(p: Platform, t: Table) {
    PlainNames(p.reserved, t.columns)
  }

  /** The statement refers to its table in a way SQL accepts. */
  predicate Readable(p: Platform, s: Statement) {
    s.OtherStatement? || ValidReference(p.reserved, s.table, s.quoted)
  }

  /** No table has the reference of a DROP TABLE, quotes and all, for its name. */
  predicate Unmistaken(db: Db, s: Statement) {
    s.DropTable? && s.quoted ==> Spelled(s.table, true) !in db
  }

  /** What the undo theorems ask of a statement and of its own table; other tables are free. */
  ghost predicate StatementOk(p: Platform, db: Db, s: Statement) {
    && RefusesUnquoted(p) && Readable(p, s) && Unmistaken(db, s)
    && (!s.OtherStatement? && s.table in db ==> TableOk(p, s.table, db[s.table]))
  }

  ghost predicate CallSound(p: Platform, w: World, call: ApprovedCall) {
    call.RunSql? ==> StatementOk(p, w.db, call.statement)
  }

  /** Equal up to the storage order of rows. */
  ghost predicate SameTable(t: Table, u: Table) {
    t.(rows := u.rows) == u && multiset(t.rows) == multiset(u.rows)
  }

  ghost predicate SameDb(a: Db, b: Db) {
    a.Keys == b.Keys && forall name :: name in a ==> SameTable(a[name], b[name])
  }

  ghost predicate SameWorld(a: World, b: World) {
    a.files == b.files && SameDb(a.db, b.db)
  }

  /** What executing an approved call may do to the world. */
  ghost predicate Runs(p: Platform, call: ApprovedCall, before: World, after: World, failed: bool) {
    match call
    case WriteFile(path, content) =>
      (failed <==> WriteFails(p, path)) && after == before.(files := AfterWrite(p, before.files, path, content))
    case RemoveFile(path) =>
      (failed <==> DeleteFails(p, before.files, path)) && after == before.(files := AfterDelete(p, before.files, path))
    case RunSql(s) =>
      after.files == before.files && Executed(s, before.db, after.db, failed)
    case OtherCall => true
  }

  /** The compensation of a captured pre-image, run against a world. */
  function Undone(p: Platform, w: World, pre: Preimage): World {
    match BuildCompensation(pre.kind, pre.payload)
    case Ok(calls) => AfterCalls(p, w, calls)
    case Err(_) => w
  }

  // ---- Files ------------------------------------------------------------------

  /** A present file whose text starts with "error:" is captured as absent. */
  predicate LooksAbsent(p: Platform, files: Files, path: string) {
    p.resolve(path).Some? && p.resolve(path).value in files && IsError(files[p.resolve(path).value])
  }

  lemma {:induction false} OneCall(p: Platform, w: World, call: ToolCall)
    ensures AfterCalls(p, w, [call]) == if CallFails(p, w, call) then w else AfterCall(p, w, call)
  {
    assert [call][1..] == [];
  }

  /** Undoing a file call restores every file exactly when the capture could tell the
      file from an absent one. */
  lemma {:induction false} FileUndone(p: Platform, before: World, after: World, call: ApprovedCall, failed: bool)
    requires (call.WriteFile? || call.RemoveFile?) && call.path != ""
    requires Runs(p, call, before, after, failed)
    ensures Undone(p, after, FilePreimage(p, before, call.path).value) == before
       <==> !LooksAbsent(p, before.files, call.path)
    ensures Undone(p, after, FilePreimage(p, before, call.path).value).db == before.db
    ensures LooksAbsent(p, before.files, call.path) ==>
      p.resolve(call.path).value !in Undone(p, after, FilePreimage(p, before, call.path).value).files
  {
    var pre := FilePreimage(p, before, call.path).value;
    var undo := if pre.payload.content.None? then FsDelete(call.path) else FsWrite(call.path,
      pre.payload.content.value);
    OneCall(p, after, undo);
    assert BuildCompensation(pre.kind, pre.payload) == Ok([undo]);
    match p.resolve(call.path)
    case None =>
    case Some(target) =>
      if target in before.files {
        if IsError(before.files[target]) {
          assert target !in Undone(p, after, pre).files;
        } else {
          assert Undone(p, after, pre).files == before.files;
        }
      } else {
        assert IsError(ReadAnswer(p, before.files, call.path));
        assert Undone(p, after, pre).files == before.files;
      }
  }

  // ---- Rows -------------------------------------------------------------------

  lemma {:induction false} JsonRoundTrip(columns: seq<string>, row: Row)
    requires |row| == |columns|
    ensures StoredRow(ToJsonRow(columns, row)) == row && Columns(ToJsonRow(columns, row)) == columns
  {
  }

  lemma {:induction false} IndexOfDistinct(names: seq<string>, i: nat)
    requires Distinct(names) && i < |names|
    ensures IndexOf(names, names[i]) == i
  {
  }

  lemma {:induction false} ArrangeSame(columns: seq<string>, row: Row)
    requires Distinct(columns) && |row| == |columns|
    ensures Arrange(columns, columns, row) == row
  {
    forall i | 0 <= i < |columns| ensures Arrange(columns, columns, row)[i] == row[i] {
      IndexOfDistinct(columns, i);
    }
  }

  lemma {:induction false} CapturedRowReads(kw: Keywords, name: string, quoted: bool, columns: seq<string>, row: Row)
    requires ValidReference(kw, name, quoted) && PlainNames(kw, columns) && |row| == |columns|
    ensures ReadInsert(kw, InsertOrReplace(Spelled(name, quoted), ToJsonRow(columns, row)))
         == Some(Literals.Insert(name, columns, row))
  {
    JsonRoundTrip(columns, row);
    InsertRoundTrip(kw, name, quoted, ToJsonRow(columns, row));
  }

  /** The printed INSERT OR REPLACE of a captured row, read back and executed, replaces that row. */
  lemma {:induction false} InsertCallReplaces(p: Platform, w: World, name: string, quoted: bool, row: Row)
    requires name in w.db && ValidReference(p.reserved, name, quoted) && Printable(p, w.db[name])
    requires var t := w.db[name]; Distinct(t.columns) && |row| == |t.columns|
    ensures var t := w.db[name];
      var call := DbExecute(InsertOrReplace(Spelled(name, quoted), ToJsonRow(t.columns, row)));
      && !CallFails(p, w, call)
      && AfterCall(p, w, call) == w.(db := w.db[name := t.(rows := ReplaceRow(t.key, t.rows, row))])
  {
    var t := w.db[name];
    CapturedRowReads(p.reserved, name, quoted, t.columns, row);
    ArrangeSame(t.columns, row);
    assert |row| == |t.columns| && ListsKnownColumns(t.columns, t.columns);
  }

  function WithRows(w: World, name: string, rows: seq<Row>): World
    requires name in w.db
  {
    w.(db := w.db[name := w.db[name].(rows := rows)])
  }

  lemma {:induction false} SameRowsBack(w: World, name: string)
    requires name in w.db
    ensures WithRows(w, name, w.db[name].rows) == w
  {
    var t := w.db[name];
    assert t.(rows := t.rows) == t;
    assert w.db[name := t] == w.db;
  }

  /** The compensating inserts for rows of a table. */
  function Inserts(name: string, quoted: bool, columns: seq<string>, rows: seq<Row>): seq<ToolCall> {
    InsertCalls(Spelled(name, quoted), ToJsonRows(columns, rows))
  }

  lemma {:induction false} InsertsStep(name: string, quoted: bool, columns: seq<string>, rows: seq<Row>)
    requires rows != []
    ensures var calls := Inserts(name, quoted, columns, rows);
      && calls != []
      && calls[0] == DbExecute(InsertOrReplace(Spelled(name, quoted), ToJsonRow(columns, rows[0])))
      && calls[1..] == Inserts(name, quoted, columns, rows[1..])
  {
  }

  lemma {:induction false} InsertCallsReplace(p: Platform, w: World, name: string, quoted: bool, rows: seq<Row>)
    requires name in w.db && ValidReference(p.reserved, name, quoted)
    requires Printable(p, w.db[name]) && Distinct(w.db[name].columns)
    requires forall i :: 0 <= i < |rows| ==> |rows[i]| == |w.db[name].columns|
    ensures AfterCalls(p, w, Inserts(name, quoted, w.db[name].columns, rows))
         == WithRows(w, name, ReplaceRows(w.db[name].key, w.db[name].rows, rows))
    decreases |rows|, 0
  {
    var t := w.db[name];
    if rows == [] {
      assert w.db[name := t] == w.db;
    } else {
      InsertCallReplaces(p, w, name, quoted, rows[0]);
      InsertsStep(name, quoted, t.columns, rows);
      InsertCallsTail(p, WithRows(w, name, ReplaceRow(t.key, t.rows, rows[0])), w, name, quoted, rows);
    }
  }

  lemma {:induction false} InsertCallsTail(p: Platform, next: World, w: World, name: string, quoted: bool,
      rows: seq<Row>)
    requires name in w.db && ValidReference(p.reserved, name, quoted) && rows != []
    requires Printable(p, w.db[name]) && Distinct(w.db[name].columns)
    requires forall i :: 0 <= i < |rows| ==> |rows[i]| == |w.db[name].columns|
    requires next == WithRows(w, name, ReplaceRow(w.db[name].key, w.db[name].rows, rows[0]))
    ensures AfterCalls(p, next, Inserts(name, quoted, w.db[name].columns, rows[1..]))
         == WithRows(w, name, ReplaceRows(w.db[name].key, w.db[name].rows, rows))
    decreases |rows| - 1, 1
  {
    InsertCallsReplace(p, next, name, quoted, rows[1..]);
  }

  /** With a column that needs quoting the first insert fails, and the loop stops there. */
  lemma {:induction false} UnprintableCallsFail(p: Platform, w: World, name: string, quoted: bool, t: Table,
      rows: seq<Row>)
    requires RefusesUnquoted(p) && ValidReference(p.reserved, name, quoted)
    requires !Printable(p, t) && AllWordy(t.columns)
    requires forall i :: 0 <= i < |rows| ==> |rows[i]| == |t.columns|
    ensures AfterCalls(p, w, Inserts(name, quoted, t.columns, rows)) == w
  {
    if rows != [] {
      var sql := InsertOrReplace(Spelled(name, quoted), ToJsonRow(t.columns, rows[0]));
      JsonRoundTrip(t.columns, rows[0]);
      UnplainIsUnreadable(p.reserved, name, quoted, ToJsonRow(t.columns, rows[0]));
      assert Refuses(p, sql);
      InsertsStep(name, quoted, t.columns, rows);
      assert CallFails(p, w, DbExecute(sql));
    }
  }

  lemma {:induction false} MatchingFull(rows: seq<Row>, where: Where, width: nat)
    requires forall i :: 0 <= i < |rows| ==> |rows[i]| == width
    ensures forall i :: 0 <= i < |Matching(rows, where)| ==> |Matching(rows, where)[i]| == width
  {
    MatchingMembers(rows, where);
    forall i | 0 <= i < |Matching(rows, where)| ensures |Matching(rows, where)[i]| == width {
      assert Matching(rows, where)[i] in rows;
    }
  }

  // ---- Statements -------------------------------------------------------------

  lemma {:induction false} NotAnInsert(kw: Keywords, sql: string)
    requires "CREATE TABLE " <= sql
    ensures ReadInsert(kw, sql) == None
  {
    assert sql[0] == 'C';
  }

  lemma {:induction false} RowsPlan(w: World, s: Statement)
    requires (s.Update? || s.Delete?) && s.table in w.db
    ensures var t := w.db[s.table]; var pre := StatementPreimage(w, s);
      && pre.Some?
      && BuildCompensation(pre.value.kind, pre.value.payload) ==
        Ok(Inserts(s.table, s.quoted, t.columns, Matching(t.rows, s.where)))
  {
  }

  lemma {:induction false} OnlyRowsChange(p: Platform, before: World, after: World, s: Statement, failed: bool)
    requires (s.Update? || s.Delete?) && s.table in before.db
    requires Runs(p, RunSql(s), before, after, failed)
    ensures s.table in after.db && after == WithRows(before, s.table, after.db[s.table].rows)
  {
    if failed { SameRowsBack(before, s.table); }
  }

  lemma {:induction false} RowsPutBack(p: Platform, w: World, name: string, quoted: bool, rows: seq<Row>)
    requires RefusesUnquoted(p) && ValidReference(p.reserved, name, quoted) && name in w.db
    requires AllWordy(w.db[name].columns) && Distinct(w.db[name].columns)
    requires forall i :: 0 <= i < |rows| ==> |rows[i]| == |w.db[name].columns|
    ensures var t := w.db[name];
      AfterCalls(p, w, Inserts(name, quoted, t.columns, rows))
      == WithRows(w, name, if Printable(p, t) then ReplaceRows(t.key, t.rows, rows) else t.rows)
  {
    var t := w.db[name];
    if Printable(p, t) {
      InsertCallsReplace(p, w, name, quoted, rows);
    } else {
      UnprintableCallsFail(p, w, name, quoted, t, rows);
      SameRowsBack(w, name);
    }
  }

  lemma {:induction false} WithRowsTwice(w: World, name: string, rows: seq<Row>)
    requires name in w.db
    ensures var v := WithRows(w, name, rows);
      name in v.db && v.db[name] == w.db[name].(rows := rows)
        && forall more :: WithRows(v, name, more) == WithRows(w, name, more)
  {
  }

  /** For a row statement, undoing leaves every other table alone and puts back rows by key;
      with a column that needs quoting it does nothing. */
  lemma {:induction false} RowsUndone(p: Platform, before: World, after: World, s: Statement, failed: bool)
    requires StatementOk(p, before.db, s) && (s.Update? || s.Delete?) && s.table in before.db
    requires Runs(p, RunSql(s), before, after, failed)
    ensures var t := before.db[s.table];
      Undone(p, after, StatementPreimage(before, s).value) == WithRows(before, s.table,
        if Printable(p, t) then ReplaceRows(t.key, after.db[s.table].rows, Matching(t.rows, s.where))
        else after.db[s.table].rows)
  {
    var t := before.db[s.table];
    var captured := Matching(t.rows, s.where);
    MatchingFull(t.rows, s.where, |t.columns|);
    RowsPlan(before, s);
    OnlyRowsChange(p, before, after, s, failed);
    RowsPutBack(p, after, s.table, s.quoted, captured);
    WithRowsTwice(before, s.table, after.db[s.table].rows);
  }

  lemma {:induction false} SameExceptRows(a: Db, name: string, rows: seq<Row>)
    requires name in a
    ensures SameDb(a[name := a[name].(rows := rows)], a) <==> multiset(rows) == multiset(a[name].rows)
  {
    var b := a[name := a[name].(rows := rows)];
    if SameDb(b, a) { assert SameTable(b[name], a[name]); }
  }

  lemma {:induction false} QuotesAround(name: string)
    ensures '"' in Spelled(name, true)
  {
    assert Spelled(name, true)[0] == '"';
  }

  /** A DROP TABLE of a table that is there is journaled exactly when some table has the
      reference, quotes and all, for its name. So an unquoted one is journaled, and a quoted one
      is not where no name holds a quote, though it is classified as compensable either way. */
  lemma {:induction false} QuotedDropIsNotJournaled(w: World, s: Statement)
    requires s.DropTable? && s.table in w.db
    ensures StatementPreimage(w, s).Some? <==> Spelled(s.table, s.quoted) in w.db
    ensures Unmistaken(w.db, s) ==> (StatementPreimage(w, s).Some? <==> !s.quoted)
    ensures (forall name :: name in w.db ==> '"' !in name) ==> Unmistaken(w.db, s)
  {
    QuotesAround(s.table);
  }

  lemma {:induction false} DropCompensation(w: World, s: Statement)
    requires s.DropTable? && !s.quoted && s.table in w.db
    ensures var t := w.db[s.table]; var pre := StatementPreimage(w, s);
      && pre.Some?
      && BuildCompensation(pre.value.kind, pre.value.payload)
         == Ok([DbExecute(t.createSql)] + Inserts(s.table, false, t.columns, t.rows))
  {
    AllRowsMatch(w.db[s.table].rows);
  }

  lemma {:induction false} Recreated(p: Platform, w: World, name: string, t: Table)
    requires TableOk(p, name, t)
    ensures var create := DbExecute(t.createSql);
      && (CallFails(p, w, create) <==> name in w.db)
      && (name !in w.db ==> AfterCall(p, w, create) == w.(db := w.db[name := t.(rows := [])]))
  {
    NotAnInsert(p.reserved, t.createSql);
  }

  lemma {:induction false} Refilled(p: Platform, w: World, name: string, t: Table)
    requires TableOk(p, name, t) && PlainName(p.reserved, name) && Printable(p, t)
    requires name in w.db && w.db[name] == t.(rows := [])
    ensures AfterCalls(p, w, Inserts(name, false, t.columns, t.rows)) == w.(db := w.db[name := t])
  {
    InsertCallsReplace(p, w, name, false, t.rows);
    ReplaceRowsIs(t.key, [], t.rows);
    assert Keep(t.key, [], t.rows) + t.rows == t.rows;
    assert t.(rows := t.rows) == t;
  }

  lemma {:induction false} RecreatedFirst(p: Platform, w: World, name: string, t: Table, rest: seq<ToolCall>)
    requires TableOk(p, name, t)
    ensures AfterCalls(p, w, [DbExecute(t.createSql)] + rest) ==
      if name in w.db then w else AfterCalls(p, w.(db := w.db[name := t.(rows := [])]), rest)
  {
    Recreated(p, w, name, t);
    assert ([DbExecute(t.createSql)] + rest)[1..] == rest;
  }

  lemma {:induction false} RefilledIfPrintable(p: Platform, w: World, name: string, t: Table)
    requires TableOk(p, name, t) && PlainName(p.reserved, name) && RefusesUnquoted(p)
    requires name in w.db && w.db[name] == t.(rows := [])
    ensures AfterCalls(p, w, Inserts(name, false, t.columns, t.rows))
         == w.(db := w.db[name := t.(rows := if Printable(p, t) then t.rows else [])])
  {
    if Printable(p, t) {
      Refilled(p, w, name, t);
      assert t.(rows := t.rows) == t;
    } else {
      UnprintableCallsFail(p, w, name, false, t, t.rows);
      assert w.db[name := t.(rows := [])] == w.db;
    }
  }

  lemma {:induction false} Readded(db: Db, name: string, u: Table, v: Table)
    ensures (db - {name})[name := u][name := v] == db[name := v]
  {
  }

  lemma {:induction false} DropRan(p: Platform, before: World, after: World, name: string)
    requires RefusesUnquoted(p) && PlainName(p.reserved, name)
    requires name in before.db && TableOk(p, name, before.db[name]) && after == before.(db := before.db - {name})
    ensures var t := before.db[name];
      AfterCalls(p, after, [DbExecute(t.createSql)] + Inserts(name, false, t.columns, t.rows))
      == WithRows(before, name, if Printable(p, t) then t.rows else [])
  {
    var t := before.db[name];
    var empty, full := t.(rows := []), t.(rows := if Printable(p, t) then t.rows else []);
    RecreatedFirst(p, after, name, t, Inserts(name, false, t.columns, t.rows));
    RefilledIfPrintable(p, after.(db := after.db[name := empty]), name, t);
    Readded(before.db, name, empty, full);
  }

  /** The table comes back from its own DDL text, with its rows if they can be named. */
  lemma {:induction false} DropUndone(p: Platform, before: World, after: World, s: Statement, failed: bool)
    requires StatementOk(p, before.db, s) && s.DropTable? && !s.quoted && s.table in before.db
    requires Runs(p, RunSql(s), before, after, failed)
    ensures var t := before.db[s.table];
      Undone(p, after, StatementPreimage(before, s).value) == WithRows(before, s.table,
        if failed || Printable(p, t) then t.rows else [])
  {
    var t := before.db[s.table];
    DropCompensation(before, s);
    SameRowsBack(before, s.table);
    if failed {
      RecreatedFirst(p, after, s.table, t, Inserts(s.table, false, t.columns, t.rows));
    } else {
      DropRan(p, before, after, s.table);
    }
  }

  // ---- The inverse theorem ----------------------------------------------------

  /** Which captured statements that went through can be taken back. Where the columns can
      be printed, all but an UPDATE that moves a key out of the captured set; where they need
      quoting, only a statement that made no difference. */
  ghost predicate Reversible(p: Platform, t: Table, s: Statement)
    requires !s.OtherStatement?
  {
    if Printable(p, t) then s.Update? ==> NoEscape(t.key, t.rows, s.where, s.assign, Matching(t.rows, s.where))
    else match s
      case Update(_, _, where, assign) => multiset(Rewritten(t.rows, where, assign)) == multiset(t.rows)
      case Delete(_, _, where) => Matching(t.rows, where) == []
      case DropTable(_, _) => t.rows == []
  }

  /** Which captured calls the compensation can take back. */
  ghost predicate Recoverable(p: Platform, w: World, call: ApprovedCall, failed: bool) {
    match call
    case WriteFile(path, _) => !LooksAbsent(p, w.files, path)
    case RemoveFile(path) => !LooksAbsent(p, w.files, path)
    case RunSql(s) => failed || (!s.OtherStatement? && s.table in w.db ==> Reversible(p, w.db[s.table], s))
    case OtherCall => true
  }

  lemma {:induction false} NothingRemoved(rows: seq<Row>, where: Where)
    ensures multiset(Others(rows, where)) == multiset(rows) <==> Matching(rows, where) == []
  {
    Partition(rows, where);
    CountIsMatching(rows, where);
    assert |multiset(Others(rows, where))| == |Others(rows, where)| && |multiset(rows)| == |rows|;
  }

  lemma {:induction false} StatementUndone(p: Platform, before: World, after: World, s: Statement, failed: bool)
    requires StatementOk(p, before.db, s) && StatementPreimage(before, s).Some?
    requires Runs(p, RunSql(s), before, after, failed)
    ensures SameWorld(Undone(p, after, StatementPreimage(before, s).value), before)
       <==> failed || Reversible(p, before.db[s.table], s)
  {
    var t := before.db[s.table];
    if s.DropTable? {
      QuotedDropIsNotJournaled(before, s);
      DropUndone(p, before, after, s, failed);
      SameExceptRows(before.db, s.table, if failed || Printable(p, t) then t.rows else []);
    } else {
      RowsUndone(p, before, after, s, failed);
      var now := after.db[s.table].rows;
      SameExceptRows(before.db, s.table,
        if Printable(p, t) then ReplaceRows(t.key, now, Matching(t.rows, s.where)) else now);
      DeleteRestored(t.key, t.rows, s.where);
      if s.Update? {
        UpdateRestored(t.key, t.rows, s.where, s.assign);
      } else {
        NothingRemoved(t.rows, s.where);
      }
    }
  }

  /** Capture, then execute, then compensate with nothing in between gives back the world
      exactly when the call is recoverable: files as they were, and every table with its
      DDL, columns, key and rows. A statement that failed is covered too. */
  lemma {:induction false} UndoRestores(p: Platform, before: World, after: World, call: ApprovedCall, failed: bool)
    requires CallSound(p, before, call) && Journals(before, call)
    requires Runs(p, call, before, after, failed)
    ensures SameWorld(Undone(p, after, PreimageOf(p, before, call).value), before)
       <==> Recoverable(p, before, call, failed)
  {
    match call
    case WriteFile(path, _) => FileUndone(p, before, after, call, failed);
    case RemoveFile(path) => FileUndone(p, before, after, call, failed);
    case RunSql(s) => StatementUndone(p, before, after, s, failed);
    case OtherCall =>
  }

  /** An UPDATE that leaves every matched row's primary key alone is recoverable. */
  lemma {:induction false} KeyPreservingIsRecoverable(p: Platform, w: World, s: Statement, failed: bool)
    requires s.Update? && s.table in w.db && Keyed(w.db[s.table].key, w.db[s.table].rows)
      && Printable(p, w.db[s.table])
    requires forall row :: row in w.db[s.table].rows && Holds(s.where, row) ==>
      KeyOf(w.db[s.table].key, s.assign(row)) == KeyOf(w.db[s.table].key, row)
    ensures Recoverable(p, w, RunSql(s), failed)
  {
    var t := w.db[s.table];
    var captured := Matching(t.rows, s.where);
    KeyedSeparates(t.key, t.rows, s.where);
    forall i | 0 <= i < |t.rows| ensures !Escapes(t.key, t.rows[i], s.where, s.assign, captured) {
      if Holds(s.where, t.rows[i]) {
        assert ConflictsAny(t.key, t.rows[i], captured);
        var j :| 0 <= j < |captured| && Conflict(t.key, t.rows[i], captured[j]);
        assert Conflict(t.key, s.assign(t.rows[i]), captured[j]);
      }
    }
  }

  // ---- Calls that are not taken back ------------------------------------------

  /** A log whose text starts with "error:" is captured as absent: after a write, undo deletes it. */
  lemma {:induction false} ErrorTextIsLost(p: Platform, before: World, after: World)
    requires p.resolve("log") == Some("/data/log") && before.files == map["/data/log" := "error: disk full"]
    requires Runs(p, WriteFile("log", "ok"), before, after, false)
    ensures Undone(p, after, FilePreimage(p, before, "log").value).files == map[]
  {
    assert "error: disk full"[..6] == ERROR;
    assert ReadAnswer(p, before.files, "log") == "error: disk full";
    OneCall(p, after, FsDelete("log"));
    assert after.files - {"/data/log"} == map[];
  }

  lemma {:induction false} MovedRows(assign: Row -> Row)
    requires assign([Int(1)]) == [Int(2)]
    ensures ReplaceRows([0], Rewritten([[Int(1)]], None, assign), Matching([[Int(1)]], None)) == [[Int(2)], [Int(1)]]
  {
    AllRowsMatch([[Int(1)]]);
    assert [[Int(1)]][1..] == [];
    assert Rewritten([[Int(1)]], None, assign) == [[Int(2)]];
    assert KeyOf([0], [Int(1)])[0] == Int(1) && KeyOf([0], [Int(2)])[0] == Int(2);
    KeepStep([0], [Int(2)], [], [[Int(1)]]);
    assert [[Int(2)]] + [] == [[Int(2)]];
    ReplaceRowsIs([0], [[Int(2)]], [[Int(1)]]);
  }

  /** UPDATE t SET id = 2 on one row: undo leaves both the old row and the new one. */
  lemma {:induction false} MovedKeyStays(p: Platform, before: World, after: World, s: Statement, sql: string)
    requires before.db == map["t" := Table(sql, ["id"], [0], [[Int(1)]])] && StatementOk(p, before.db, s)
    requires Printable(p, before.db["t"])
    requires s.Update? && s.table == "t" && s.where == None && s.assign([Int(1)]) == [Int(2)]
    requires Runs(p, RunSql(s), before, after, false)
    ensures Undone(p, after, StatementPreimage(before, s).value) == WithRows(before, "t", [[Int(2)], [Int(1)]])
  {
    RowsUndone(p, before, after, s, false);
    MovedRows(s.assign);
  }

  /** DELETE FROM t where t has a column named "unit price": the rows stay deleted. */
  lemma {:induction false} QuotedColumnStaysEmpty(p: Platform, before: World, after: World, s: Statement, sql: string)
    requires before.db == map["t" := Table(sql, ["unit price"], [0], [[Int(1)]])] && StatementOk(p, before.db, s)
    requires s.Delete? && s.table == "t" && s.where == None
    requires Runs(p, RunSql(s), before, after, false)
    ensures Undone(p, after, StatementPreimage(before, s).value) == WithRows(before, "t", [])
  {
    assert !IsNameChar("unit price"[4]);
    assert !PlainName(p.reserved, before.db["t"].columns[0]);
    RowsUndone(p, before, after, s, false);
    assert [[Int(1)]][1..] == [];
    assert Others([[Int(1)]], None) == [];
  }
}
