/** What a call acts on, its file or its table: the pre-image, the call, and the compensating
    calls read and change nothing else, so all of them can be followed on that target alone. */
module Targets {
  import opened Records
  import opened Literals
  import opened Database
  import opened Tools
  import opened Compensation
  import opened Capture
  import opened Restore

  // ---- Targets ----------------------------------------------------------------

  ghost predicate SameFile(p: Platform, v: World, w: World, path: string) {
    p.resolve(path).Some? ==>
      var target := p.resolve(path).value;
      (target in v.files <==> target in w.files) && (target in v.files ==> v.files[target] == w.files[target])
  }

  ghost predicate SameEntry(v: World, w: World, name: string) {
    (name in v.db <==> name in w.db) && (name in v.db ==> v.db[name] == w.db[name])
  }

  /** Two worlds agree on what the call reads and changes: its file, or its table. */
  ghost predicate SameTarget(p: Platform, call: ApprovedCall, v: World, w: World) {
    match call
    case WriteFile(path, _) => SameFile(p, v, w, path)
    case RemoveFile(path) => SameFile(p, v, w, path)
    case RunSql(s) =>
      !s.OtherStatement? ==> SameEntry(v, w, s.table) && (s.DropTable? ==> SameEntry(v, w, Spelled(s.table, s.quoted)))
    case OtherCall => true
  }

  lemma {:induction false} SameTargetTransitive(p: Platform, call: ApprovedCall, u: World, v: World, w: World)
    requires SameTarget(p, call, u, v) && SameTarget(p, call, v, w)
    ensures SameTarget(p, call, u, w)
  {
  }

  lemma {:induction false} SameTargetSymmetric(p: Platform, call: ApprovedCall, v: World, w: World)
    requires SameTarget(p, call, v, w)
    ensures SameTarget(p, call, w, v)
  {
  }

  /** The pre-image of a call depends on its target alone. */
  lemma {:induction false} PreimageIsLocal(p: Platform, call: ApprovedCall, v: World, w: World)
    requires SameTarget(p, call, v, w)
    ensures PreimageOf(p, v, call) == PreimageOf(p, w, call)
  {
  }

  predicate DisjointFrom(p: Platform, call: ApprovedCall, path: string) {
    call.WriteFile? || call.RemoveFile? ==> p.resolve(call.path).None? || p.resolve(call.path) != p.resolve(path)
  }

  /** The other call is known to act on another file or table. */
  predicate Disjoint(p: Platform, call: ApprovedCall, other: ApprovedCall) {
    match other
    case WriteFile(path, _) => DisjointFrom(p, call, path)
    case RemoveFile(path) => DisjointFrom(p, call, path)
    case RunSql(s) =>
      !s.OtherStatement? && (call.RunSql? && !call.statement.OtherStatement? ==>
        s.table != call.statement.table && s.table != Spelled(call.statement.table, call.statement.quoted))
    case OtherCall => false
  }

  /** Running a call that acts on another file or table leaves the target alone. */
  lemma {:induction false} DisjointLeavesAlone(p: Platform, call: ApprovedCall, other: ApprovedCall, v: World,
      w: World, failed: bool)
    requires Disjoint(p, call, other) && Runs(p, other, v, w, failed)
    ensures SameTarget(p, call, v, w)
  {
  }

  // ---- Compensating calls are local -------------------------------------------

  ghost predicate ActsAlike(p: Platform, call: ApprovedCall, tc: ToolCall, v: World, w: World) {
    (CallFails(p, v, tc) <==> CallFails(p, w, tc)) && SameTarget(p, call, AfterCall(p, v, tc), AfterCall(p, w, tc))
  }

  /** The tool call reads and changes nothing but the target of the gateway call. */
  ghost predicate ActsOn(p: Platform, call: ApprovedCall, tc: ToolCall) {
    forall v, w :: SameTarget(p, call, v, w) ==> ActsAlike(p, call, tc, v, w)
  }

  ghost predicate AllActOn(p: Platform, call: ApprovedCall, calls: seq<ToolCall>) {
    forall n :: 0 <= n < |calls| ==> ActsOn(p, call, calls[n])
  }

  lemma {:induction false} FileCallsActOn(p: Platform, call: ApprovedCall, tc: ToolCall)
    requires call.WriteFile? || call.RemoveFile?
    requires (tc.FsWrite? || tc.FsDelete?) && tc.path == call.path
    ensures ActsOn(p, call, tc)
  {
  }

  lemma {:induction false} InsertIsLocal(p: Platform, name: string, quoted: bool, columns: seq<string>, row: Row,
      v: Db, w: Db)
    requires ValidReference(p.reserved, name, quoted) && PlainNames(p.reserved, columns) && |row| == |columns|
    requires (name in v <==> name in w) && (name in v ==> v[name] == w[name])
    ensures var sql := InsertOrReplace(Spelled(name, quoted), ToJsonRow(columns, row));
      var x, y := ExecuteText(p, v, sql), ExecuteText(p, w, sql);
      && (x.None? <==> y.None?)
      && (x.Some? ==> name in v && name in x.value && name in y.value && x.value[name] == y.value[name]
                      && x.value == v[name := x.value[name]] && y.value == w[name := y.value[name]])
  {
    CapturedRowReads(p.reserved, name, quoted, columns, row);
  }

  lemma {:induction false} RefusedEverywhere(p: Platform, s: Statement, columns: seq<string>, row: Row, db: Db)
    requires !s.OtherStatement? && Readable(p, s) && RefusesUnquoted(p)
    requires AllWordy(columns) && !PlainNames(p.reserved, columns) && |row| == |columns|
    ensures ExecuteText(p, db, InsertOrReplace(Spelled(s.table, s.quoted), ToJsonRow(columns, row))).None?
  {
    JsonRoundTrip(columns, row);
    UnplainIsUnreadable(p.reserved, s.table, s.quoted, ToJsonRow(columns, row));
    assert Refuses(p, InsertOrReplace(Spelled(s.table, s.quoted), ToJsonRow(columns, row)));
  }

  lemma {:induction false} InsertActsOn(p: Platform, s: Statement, columns: seq<string>, row: Row)
    requires !s.OtherStatement? && Readable(p, s) && (s.DropTable? ==> !s.quoted)
    requires RefusesUnquoted(p) && AllWordy(columns) && |row| == |columns|
    ensures ActsOn(p, RunSql(s), DbExecute(InsertOrReplace(Spelled(s.table, s.quoted), ToJsonRow(columns, row))))
  {
    var sql := InsertOrReplace(Spelled(s.table, s.quoted), ToJsonRow(columns, row));
    forall v, w | SameTarget(p, RunSql(s), v, w) ensures ActsAlike(p, RunSql(s), DbExecute(sql), v, w) {
      if PlainNames(p.reserved, columns) {
        InsertIsLocal(p, s.table, s.quoted, columns, row, v.db, w.db);
      } else {
        RefusedEverywhere(p, s, columns, row, v.db);
        RefusedEverywhere(p, s, columns, row, w.db);
      }
    }
  }

  lemma {:induction false} CreateActsOn(p: Platform, s: Statement, t: Table)
    requires s.DropTable? && !s.quoted && TableOk(p, s.table, t)
    ensures ActsOn(p, RunSql(s), DbExecute(t.createSql))
  {
    NotAnInsert(p.reserved, t.createSql);
  }

  lemma {:induction false} InsertsActOn(p: Platform, s: Statement, columns: seq<string>, rows: seq<Row>)
    requires !s.OtherStatement? && Readable(p, s) && (s.DropTable? ==> !s.quoted)
    requires RefusesUnquoted(p) && AllWordy(columns) && forall i :: 0 <= i < |rows| ==> |rows[i]| == |columns|
    ensures AllActOn(p, RunSql(s), Inserts(s.table, s.quoted, columns, rows))
  {
    forall n | 0 <= n < |rows| ensures ActsOn(p, RunSql(s), Inserts(s.table, s.quoted, columns, rows)[n]) {
      InsertActsOn(p, s, columns, rows[n]);
    }
  }

  /** A captured call whose world is as the undo theorems ask. */
  ghost predicate CapturedWell(p: Platform, w: World, call: ApprovedCall) {
    CallSound(p, w, call) && Journals(w, call)
  }

  function PlanFrom(pre: Preimage): seq<ToolCall> {
    PlanOf(pre.kind, pre.payload)
  }

  lemma {:induction false} FirstAndRestActOn(p: Platform, call: ApprovedCall, first: ToolCall, rest: seq<ToolCall>)
    requires ActsOn(p, call, first) && AllActOn(p, call, rest)
    ensures AllActOn(p, call, [first] + rest)
  {
    forall n | 0 <= n < |[first] + rest| ensures ActsOn(p, call, ([first] + rest)[n]) {
      if n > 0 { assert ([first] + rest)[n] == rest[n - 1]; }
    }
  }

  lemma {:induction false} FilePlan(p: Platform, w: World, path: string) returns (undo: ToolCall)
    requires path != ""
    ensures FilePreimage(p, w, path).Some? && PlanFrom(FilePreimage(p, w, path).value) == [undo]
    ensures (undo.FsWrite? || undo.FsDelete?) && undo.path == path
  {
    var content := FilePreimage(p, w, path).value.payload.content;
    undo := if content.None? then FsDelete(path) else FsWrite(path, content.value);
  }

  lemma {:induction false} FilePlanActsOn(p: Platform, w: World, call: ApprovedCall)
    requires (call.WriteFile? || call.RemoveFile?) && call.path != ""
    ensures FilePreimage(p, w, call.path).Some? && AllActOn(p, call, PlanFrom(FilePreimage(p, w, call.path).value))
  {
    var undo := FilePlan(p, w, call.path);
    FileCallsActOn(p, call, undo);
    FirstAndRestActOn(p, call, undo, []);
    assert [undo] + [] == [undo];
  }

  lemma {:induction false} RowsPlanActsOn(p: Platform, w: World, s: Statement)
    requires StatementOk(p, w.db, s) && StatementPreimage(w, s).Some? && !s.DropTable?
    ensures AllActOn(p, RunSql(s), PlanFrom(StatementPreimage(w, s).value))
  {
    var t := w.db[s.table];
    RowsPlan(w, s);
    MatchingFull(t.rows, s.where, |t.columns|);
    InsertsActOn(p, s, t.columns, Matching(t.rows, s.where));
  }

  lemma {:induction false} DropPlanActsOn(p: Platform, w: World, s: Statement)
    requires StatementOk(p, w.db, s) && StatementPreimage(w, s).Some? && s.DropTable?
    ensures AllActOn(p, RunSql(s), PlanFrom(StatementPreimage(w, s).value))
  {
    var t := w.db[s.table];
    QuotedDropIsNotJournaled(w, s);
    DropCompensation(w, s);
    CreateActsOn(p, s, t);
    InsertsActOn(p, s, t.columns, t.rows);
    FirstAndRestActOn(p, RunSql(s), DbExecute(t.createSql), Inserts(s.table, false, t.columns, t.rows));
  }

  /** Every call of the plan built from a call's pre-image acts on that call's target alone. */
  lemma {:induction false} PlanActsOn(p: Platform, w: World, call: ApprovedCall)
    requires CapturedWell(p, w, call)
    ensures AllActOn(p, call, PlanFrom(PreimageOf(p, w, call).value))
  {
    match call
    case WriteFile(path, _) => FilePlanActsOn(p, w, call);
    case RemoveFile(path) => FilePlanActsOn(p, w, call);
    case RunSql(s) => if s.DropTable? { DropPlanActsOn(p, w, s); } else { RowsPlanActsOn(p, w, s); }
    case OtherCall =>
  }

  // ---- Running and undoing a call, on its target ------------------------------

  function RanSql(s: Statement, db: Db): Db {
    match s
    case Update(name, _, where, assign) =>
      if name in db then db[name := db[name].(rows := Rewritten(db[name].rows, where, assign))] else db
    case Delete(name, _, where) => if name in db then db[name := db[name].(rows := Others(db[name].rows,
      where))] else db
    case DropTable(name, _) => db - {name}
    case OtherStatement => db
  }

  /** The world after a captured call has run: the outcome depends on `failed` alone. */
  function Ran(p: Platform, call: ApprovedCall, w: World, failed: bool): World {
    match call
    case WriteFile(path, content) => w.(files := AfterWrite(p, w.files, path, content))
    case RemoveFile(path) => w.(files := AfterDelete(p, w.files, path))
    case RunSql(s) => if failed then w else w.(db := RanSql(s, w.db))
    case OtherCall => w
  }

  /** A call runs alike in worlds that agree on its target. */
  lemma {:induction false} RunsAlike(p: Platform, call: ApprovedCall, v: World, after: World, w: World, failed: bool)
    requires SameTarget(p, call, v, w) && Runs(p, call, v, after, failed) && PreimageOf(p, v, call).Some?
    ensures Runs(p, call, w, Ran(p, call, w, failed), failed) && SameTarget(p, call, after, Ran(p, call, w, failed))
  {
  }

  /** The target is back: the file as it was, or the table up to the storage order of its rows. */
  ghost predicate TargetBack(p: Platform, call: ApprovedCall, v: World, w: World) {
    match call
    case WriteFile(path, _) => SameFile(p, v, w, path)
    case RemoveFile(path) => SameFile(p, v, w, path)
    case RunSql(s) =>
      !s.OtherStatement? ==>
        (s.table in v.db <==> s.table in w.db) && (s.table in v.db ==> SameTable(v.db[s.table], w.db[s.table]))
    case OtherCall => true
  }

  lemma {:induction false} TargetBackIsLocal(p: Platform, call: ApprovedCall, u: World, v: World, w: World)
    requires SameTarget(p, call, u, v)
    ensures TargetBack(p, call, u, w) <==> TargetBack(p, call, v, w)
  {
  }

  lemma {:induction false} OneTableBack(w: World, name: string, rows: seq<Row>, s: Statement, p: Platform)
    requires name in w.db && !s.OtherStatement? && s.table == name
    ensures TargetBack(p, RunSql(s), WithRows(w, name, rows), w) <==> SameWorld(WithRows(w, name, rows), w)
  {
    SameExceptRows(w.db, name, rows);
  }

  lemma {:induction false} UndoneTable(p: Platform, before: World, after: World, s: Statement, failed: bool)
    requires CapturedWell(p, before, RunSql(s)) && Runs(p, RunSql(s), before, after, failed)
    ensures var undone := Undone(p, after, StatementPreimage(before, s).value);
      TargetBack(p, RunSql(s), undone, before) <==> SameWorld(undone, before)
  {
    var t := before.db[s.table];
    if s.DropTable? {
      QuotedDropIsNotJournaled(before, s);
      DropUndone(p, before, after, s, failed);
      OneTableBack(before, s.table, if failed || Printable(p, t) then t.rows else [], s, p);
    } else {
      RowsUndone(p, before, after, s, failed);
      var now := after.db[s.table].rows;
      OneTableBack(before, s.table,
        if Printable(p, t) then ReplaceRows(t.key, now, Matching(t.rows, s.where)) else now, s, p);
    }
  }

  /** On its target, undoing a captured call gives back the state before it exactly when the
      call is recoverable. */
  lemma {:induction false} UndoneTarget(p: Platform, before: World, after: World, call: ApprovedCall, failed: bool)
    requires CapturedWell(p, before, call) && Runs(p, call, before, after, failed)
    ensures TargetBack(p, call, Undone(p, after, PreimageOf(p, before, call).value), before)
       <==> Recoverable(p, before, call, failed)
  {
    UndoRestores(p, before, after, call, failed);
    match call
    case WriteFile(path, _) => FileUndone(p, before, after, call, failed);
    case RemoveFile(path) => FileUndone(p, before, after, call, failed);
    case RunSql(s) => UndoneTable(p, before, after, s, failed);
    case OtherCall =>
  }

  // ---- One compensating call after another --------------------------------------

  lemma {:induction false} FailedCallChangesNothing(p: Platform, w: World, tc: ToolCall)
    requires CallFails(p, w, tc)
    ensures AfterCall(p, w, tc) == w
  {
  }

  lemma {:induction false} StopsAtFailure(p: Platform, w: World, made: seq<ToolCall>, tc: ToolCall)
    requires !CallsFail(p, w, made) && CallFails(p, AfterCalls(p, w, made), tc)
    ensures AfterCalls(p, w, made + [tc]) == AfterCalls(p, w, made)
    decreases |made|
  {
    if made != [] {
      assert (made + [tc])[1..] == made[1..] + [tc];
      StopsAtFailure(p, AfterCall(p, w, made[0]), made[1..], tc);
    }
  }

  lemma {:induction false} OneCallOn(p: Platform, w: World, made: seq<ToolCall>, tc: ToolCall)
    requires !CallsFail(p, w, made)
    ensures AfterCalls(p, w, made + [tc]) == AfterCall(p, AfterCalls(p, w, made), tc)
    ensures CallsFail(p, w, made + [tc]) <==> CallFails(p, AfterCalls(p, w, made), tc)
  {
    AfterCallsExtend(p, w, made, tc);
    if CallFails(p, AfterCalls(p, w, made), tc) {
      StopsAtFailure(p, w, made, tc);
      FailedCallChangesNothing(p, AfterCalls(p, w, made), tc);
    }
  }

  lemma {:induction false} UndoneIsPlan(p: Platform, w: World, pre: Preimage)
    requires WellKinded(pre.kind, pre.payload)
    ensures Undone(p, w, pre) == AfterCalls(p, w, PlanFrom(pre))
  {
  }

  /** The request's next call, made in the shared world, does to the target what it does after
      the calls made so far. */
  lemma {:induction false} NextCallAlike(p: Platform, call: ApprovedCall, base: World, w: World, made: seq<ToolCall>,
      tc: ToolCall)
    requires SameTarget(p, call, w, AfterCalls(p, base, made)) && !CallsFail(p, base, made) && ActsOn(p, call, tc)
    ensures SameTarget(p, call, AfterCall(p, w, tc), AfterCalls(p, base, made + [tc]))
    ensures CallsFail(p, base, made + [tc]) <==> CallFails(p, w, tc)
  {
    OneCallOn(p, base, made, tc);
    assert ActsAlike(p, call, tc, w, AfterCalls(p, base, made));
  }
}
