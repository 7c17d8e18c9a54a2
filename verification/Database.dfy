/** The keyed tables behind `db__query` / `db__execute`: rows in storage order,
    single-table statements, and the queries that the gateway derives from them. */
module Database {
  import opened Records
  import opened Literals

  type Row = seq<SqlValue>

  /** `createSql` is the text SQLite keeps for the table; `key` lists the primary-key columns. */
  datatype Table = Table(createSql: string, columns: seq<string>, key: seq<nat>, rows: seq<Row>)

  type Db = map<string, Table>

  /** A parsed `WHERE`; absent means every row. The predicate says when it is true. */
  type Where = Option<Row -> bool>

  /** `quoted` tells whether the statement writes its table's name in double quotes. */
  datatype Statement =
    | Update(table: string, quoted: bool, where: Where, assign: Row -> Row)
    | Delete(table: string, quoted: bool, where: Where)
    | DropTable(table: string, quoted: bool)
    | OtherStatement

  predicate Holds(where: Where, row: Row) {
    where.None? || where.value(row)
  }

  // ---- Keys -------------------------------------------------------------------

  function At(row: Row, i: nat): SqlValue {
    if i < |row| then row[i] else Null
  }

  function KeyOf(key: seq<nat>, row: Row): seq<SqlValue> {
    seq(|key|, j requires 0 <= j < |key| => At(row, key[j]))
  }

  /** Two rows clash on the primary key; a NULL never clashes. */
  predicate Conflict(key: seq<nat>, a: Row, b: Row) {
    KeyOf(key, a) == KeyOf(key, b) && Null !in KeyOf(key, a)
  }

  predicate ConflictsAny(key: seq<nat>, row: Row, others: seq<Row>) {
    exists i :: 0 <= i < |others| && Conflict(key, row, others[i])
  }

  predicate Unique(key: seq<nat>, rows: seq<Row>) {
    forall i, j :: 0 <= i < j < |rows| ==> !Conflict(key, rows[i], rows[j])
  }

  /** Distinct primary keys, none of them NULL. */
  predicate Keyed(key: seq<nat>, rows: seq<Row>) {
    Unique(key, rows) && forall i :: 0 <= i < |rows| ==> Null !in KeyOf(key, rows[i])
  }

  // ---- Row operations ---------------------------------------------------------

  function Matching(rows: seq<Row>, where: Where): seq<Row> {
    if rows == [] then []
    else (if Holds(where, rows[0]) then [rows[0]] else []) + Matching(rows[1..], where)
  }

  function Others(rows: seq<Row>, where: Where): seq<Row> {
    if rows == [] then []
    else (if Holds(where, rows[0]) then [] else [rows[0]]) + Others(rows[1..], where)
  }

  function Rewritten(rows: seq<Row>, where: Where, assign: Row -> Row): seq<Row> {
    if rows == [] then []
    else [if Holds(where, rows[0]) then assign(rows[0]) else rows[0]] + Rewritten(rows[1..], where, assign)
  }

  /** What `COUNT(*)` counts. */
  function CountRows(rows: seq<Row>, where: Where): nat {
    if rows == [] then 0 else (if Holds(where, rows[0]) then 1 else 0) + CountRows(rows[1..], where)
  }

  /** The rows that survive the arrival of `incoming` under REPLACE. */
  function Keep(key: seq<nat>, rows: seq<Row>, incoming: seq<Row>): seq<Row> {
    if rows == [] then []
    else (if ConflictsAny(key, rows[0], incoming) then [] else [rows[0]]) + Keep(key, rows[1..], incoming)
  }

  /** INSERT OR REPLACE of one row: clashing rows go, the new row is appended. */
  function ReplaceRow(key: seq<nat>, rows: seq<Row>, row: Row): seq<Row> {
    Keep(key, rows, [row]) + [row]
  }

  function ReplaceRows(key: seq<nat>, rows: seq<Row>, incoming: seq<Row>): seq<Row>
    decreases |incoming|
  {
    if incoming == [] then rows else ReplaceRows(key, ReplaceRow(key, rows, incoming[0]), incoming[1..])
  }

  // ---- Statements -------------------------------------------------------------

  /** What a statement may do. A failing statement changes nothing; a succeeding UPDATE
      leaves unique keys and full rows. Statements the gateway does not capture are unconstrained. */
  ghost predicate Executed(s: Statement, before: Db, after: Db, failed: bool) {
    if failed then after == before
    else match s
      case Update(name, _, where, assign) =>
        && name in before
        && var t := before[name]; var rows := Rewritten(t.rows, where, assign);
        && after == before[name := t.(rows := rows)]
        && Unique(t.key, rows)
        && forall i :: 0 <= i < |rows| ==> |rows[i]| == |t.columns|
      case Delete(name, _, where) =>
        name in before && after == before[name := before[name].(rows := Others(before[name].rows, where))]
      case DropTable(name, _) =>
        name in before && after == before - {name}
      case OtherStatement => true
  }

  /** The positions of the rows that an UPDATE rewrites. */
  function Touched(rows: seq<Row>, where: Where): set<int> {
    set i | 0 <= i < |rows| && Holds(where, rows[i])
  }

  /** The number of rows a succeeding statement rewrites or removes. */
  function Affected(s: Statement, db: Db): int {
    match s
    case Update(name, _, where, _) => if name in db then |Touched(db[name].rows, where)| else 0
    case Delete(name, _, where) => if name in db then |db[name].rows| - |Others(db[name].rows, where)| else 0
    case DropTable(name, _) => if name in db then |db[name].rows| else 0
    case OtherStatement => 0
  }

  // ---- Derived queries --------------------------------------------------------

  datatype Query = SelectCount(table: string, where: Where) | SelectRows(table: string, where: Where)

  /** `build_count_sql` */
  function CountQuery(s: Statement): Option<Query> {
    match s
    case Update(name, _, where, _) => Some(SelectCount(name, where))
    case Delete(name, _, where) => Some(SelectCount(name, where))
    case DropTable(name, _) => Some(SelectCount(name, None))
    case OtherStatement => None
  }

  /** The row query of `_capture_db`. */
  function RowsQuery(s: Statement): Option<Query> {
    match s
    case Update(name, _, where, _) => Some(SelectRows(name, where))
    case Delete(name, _, where) => Some(SelectRows(name, where))
    case DropTable(name, _) => Some(SelectRows(name, None))
    case OtherStatement => None
  }

  /** A query's result rows; `COUNT(*)` answers with one row of one integer. A missing table is an error. */
  function Answer(q: Query, db: Db): Option<seq<Row>> {
    if q.table !in db then None
    else match q
      case SelectCount(name, where) => Some([[Int(CountRows(db[name].rows, where))]])
      case SelectRows(name, where) => Some(Matching(db[name].rows, where))
  }

  /** `estimate_blast_radius` for a `db__execute` call: None on every failure. */
  function EstimateBlastRadius(s: Statement, db: Db): Option<string> {
    match CountQuery(s)
    case None => None
    case Some(q) =>
      match Answer(q, db)
      case None => None
      case Some(rows) =>
        if |rows| > 0 && |rows[0]| > 0 && rows[0][0].Int? then Some("~" + PrintInt(rows[0][0].i) + " rows affected")
        else None
  }

  lemma {:induction false} CountIsMatching(rows: seq<Row>, where: Where)
    ensures |Matching(rows, where)| == CountRows(rows, where) == |rows| - |Others(rows, where)|
  {
    if rows != [] {
      CountIsMatching(rows[1..], where);
    }
  }

  lemma {:induction false} CountLast(rows: seq<Row>, where: Where)
    requires rows != []
    ensures CountRows(rows, where) == CountRows(rows[..|rows| - 1], where) + if Holds(where,
      rows[|rows| - 1]) then 1 else 0
  {
    if |rows| > 1 {
      CountLast(rows[1..], where);
      assert rows[1..][..|rows| - 2] == rows[..|rows| - 1][1..];
    }
  }

  /** Counting row by row gives the number of positions touched. */
  lemma {:induction false} CountIsTouched(rows: seq<Row>, where: Where)
    ensures CountRows(rows, where) == |Touched(rows, where)|
  {
    if rows != [] {
      var n := |rows| - 1;
      CountLast(rows, where);
      CountIsTouched(rows[..n], where);
      assert Touched(rows, where) == Touched(rows[..n], where) + if Holds(where, rows[n]) then {n} else {};
    }
  }

  lemma {:induction false} AllRowsMatch(rows: seq<Row>)
    ensures Matching(rows, None) == rows && CountRows(rows, None) == |rows|
  {
    if rows != [] {
      AllRowsMatch(rows[1..]);
      assert [rows[0]] + rows[1..] == rows;
    }
  }

  /** The count on the approval card, the number of captured rows, and the number of rows
      the statement updates or removes are one number, on any table. */
  lemma {:induction false} RewritesAgree(s: Statement, db: Db)
    requires !s.OtherStatement? && s.table in db
    ensures Answer(RowsQuery(s).value, db).Some?
    ensures Answer(CountQuery(s).value, db) == Some([[Int(|Answer(RowsQuery(s).value, db).value|)]])
    ensures |Answer(RowsQuery(s).value, db).value| == Affected(s, db)
    ensures EstimateBlastRadius(s, db) == Some("~" + PrintInt(Affected(s, db)) + " rows affected")
  {
    var rows := db[s.table].rows;
    if s.DropTable? {
      AllRowsMatch(rows);
    } else {
      CountIsMatching(rows, s.where);
      CountIsTouched(rows, s.where);
    }
  }

  /** There is an estimate exactly for an UPDATE, DELETE or DROP TABLE of a table that is there. */
  lemma {:induction false} EstimatedExactlyWhen(s: Statement, db: Db)
    ensures EstimateBlastRadius(s, db).Some? <==> (s.Update? || s.Delete? || s.DropTable?) && s.table in db
  {
    if !s.OtherStatement? && s.table in db { RewritesAgree(s, db); }
  }

  lemma {:induction false} RewrittenPointwise(rows: seq<Row>, where: Where, assign: Row -> Row)
    ensures |Rewritten(rows, where, assign)| == |rows|
    ensures forall i :: 0 <= i < |rows| ==>
      Rewritten(rows, where, assign)[i] == if Holds(where, rows[i]) then assign(rows[i]) else rows[i]
  {
    if rows != [] {
      RewrittenPointwise(rows[1..], where, assign);
      forall i | 0 < i < |rows|
        ensures Rewritten(rows, where, assign)[i] == if Holds(where, rows[i]) then assign(rows[i]) else rows[i]
      {
        assert Rewritten(rows, where, assign)[i] == Rewritten(rows[1..], where, assign)[i - 1];
        assert rows[1..][i - 1] == rows[i];
      }
    }
  }

  /** `Affected` is the change a succeeding execution makes: a DROP removes that many rows with
      their table, a DELETE that many rows, and an UPDATE rewrites the rows at exactly that
      many positions and leaves the others as they were. */
  lemma {:induction false} AffectedIsTheChange(s: Statement, before: Db, after: Db)
    requires !s.OtherStatement? && Executed(s, before, after, false)
    ensures s.DropTable? ==> s.table !in after && |before[s.table].rows| == Affected(s, before)
    ensures s.Delete? ==> |before[s.table].rows| - |after[s.table].rows| == Affected(s, before)
    ensures s.Update? ==>
      var was, now := before[s.table].rows, after[s.table].rows; var touched := Touched(was, s.where);
      && |touched| == Affected(s, before) && |now| == |was|
      && (forall i :: i in touched ==> 0 <= i < |was| && now[i] == s.assign(was[i]))
      && (forall i :: 0 <= i < |was| && i !in touched ==> now[i] == was[i])
  {
    if s.Update? {
      RewrittenPointwise(before[s.table].rows, s.where, s.assign);
    }
  }

  // ---- What REPLACE restores --------------------------------------------------

  lemma {:induction false} KeepConcat(key: seq<nat>, a: seq<Row>, b: seq<Row>, incoming: seq<Row>)
    ensures Keep(key, a + b, incoming) == Keep(key, a, incoming) + Keep(key, b, incoming)
  {
    if a == [] {
      assert a + b == b;
    } else {
      assert (a + b)[1..] == a[1..] + b;
      KeepConcat(key, a[1..], b, incoming);
    }
  }

  lemma {:induction false} KeepStep(key: seq<nat>, row: Row, rows: seq<Row>, incoming: seq<Row>)
    ensures Keep(key, [row] + rows, incoming) == (if ConflictsAny(key, row, incoming) then [] else [row]) + Keep(key,
      rows, incoming)
  {
    assert ([row] + rows)[1..] == rows;
  }

  lemma {:induction false} ConflictsSplit(key: seq<nat>, row: Row, incoming: seq<Row>)
    requires incoming != []
    ensures ConflictsAny(key, row, incoming) <==>
      ConflictsAny(key, row, [incoming[0]]) || ConflictsAny(key, row, incoming[1..])
  {
    if ConflictsAny(key, row, incoming) {
      var i :| 0 <= i < |incoming| && Conflict(key, row, incoming[i]);
      if i == 0 { assert Conflict(key, row, [incoming[0]][0]);
        } else { assert Conflict(key, row, incoming[1..][i - 1]); }
    }
    if ConflictsAny(key, row, incoming[1..]) {
      var i :| 0 <= i < |incoming[1..]| && Conflict(key, row, incoming[1..][i]);
      assert Conflict(key, row, incoming[i + 1]);
    }
  }

  lemma {:induction false} KeepTwice(key: seq<nat>, rows: seq<Row>, incoming: seq<Row>)
    requires incoming != []
    ensures Keep(key, Keep(key, rows, [incoming[0]]), incoming[1..]) == Keep(key, rows, incoming)
  {
    if rows != [] {
      KeepTwice(key, rows[1..], incoming);
      ConflictsSplit(key, rows[0], incoming);
      var later := Keep(key, rows[1..], [incoming[0]]);
      if ConflictsAny(key, rows[0], [incoming[0]]) {
        assert Keep(key, rows, [incoming[0]]) == later;
      } else {
        KeepStep(key, rows[0], later, incoming[1..]);
      }
    }
  }

  lemma {:induction false} ReplaceStep(key: seq<nat>, rows: seq<Row>, incoming: seq<Row>)
    requires incoming != [] && Unique(key, incoming)
    ensures Keep(key, ReplaceRow(key, rows, incoming[0]), incoming[1..]) + incoming[1..] ==
      Keep(key, rows, incoming) + incoming
  {
    var first, later := [incoming[0]], incoming[1..];
    KeepConcat(key, Keep(key, rows, first), first, later);
    KeepTwice(key, rows, incoming);
    assert !ConflictsAny(key, incoming[0], later) by {
      assert forall i :: 0 <= i < |later| ==> later[i] == incoming[i + 1];
    }
    KeepStep(key, incoming[0], [], later);
    assert [incoming[0]] + [] == first;
    assert first + later == incoming;
  }

  lemma {:induction false} KeepAll(key: seq<nat>, rows: seq<Row>)
    ensures Keep(key, rows, []) == rows
  {
    if rows != [] {
      KeepAll(key, rows[1..]);
      assert [rows[0]] + rows[1..] == rows;
    }
  }

  /** Replacing row after row by pairwise distinct keys drops the clashing rows once and
      appends the incoming rows in order. */
  lemma {:induction false} ReplaceRowsIs(key: seq<nat>, rows: seq<Row>, incoming: seq<Row>)
    requires Unique(key, incoming)
    ensures ReplaceRows(key, rows, incoming) == Keep(key, rows, incoming) + incoming
    decreases |incoming|
  {
    if incoming == [] {
      KeepAll(key, rows);
    } else {
      var first, later := [incoming[0]], incoming[1..];
      var kept := Keep(key, rows, first);
      assert Unique(key, later) by {
        assert forall i :: 0 <= i < |later| ==> later[i] == incoming[i + 1];
      }
      ReplaceRowsIs(key, kept + first, later);
      ReplaceStep(key, rows, incoming);
    }
  }

  lemma {:induction false} Partition(rows: seq<Row>, where: Where)
    ensures multiset(Others(rows, where)) + multiset(Matching(rows, where)) == multiset(rows)
  {
    if rows != [] {
      Partition(rows[1..], where);
      assert rows == [rows[0]] + rows[1..];
      assert multiset(rows) == multiset{rows[0]} + multiset(rows[1..]);
      if Holds(where, rows[0]) {
        assert multiset(Matching(rows, where)) == multiset{rows[0]} + multiset(Matching(rows[1..], where));
      } else {
        assert multiset(Others(rows, where)) == multiset{rows[0]} + multiset(Others(rows[1..], where));
      }
    }
  }

  lemma {:induction false} MatchingMembers(rows: seq<Row>, where: Where)
    ensures forall r :: r in Matching(rows, where) <==> r in rows && Holds(where, r)
    ensures forall r :: r in Others(rows, where) <==> r in rows && !Holds(where, r)
  {
    if rows != [] {
      MatchingMembers(rows[1..], where);
      assert [rows[0]] + rows[1..] == rows;
    }
  }

  /** Matched rows clash with some captured row, the others with none. */
  ghost predicate Separated(key: seq<nat>, rows: seq<Row>, where: Where, captured: seq<Row>) {
    forall i :: 0 <= i < |rows| ==> (Holds(where, rows[i]) <==> ConflictsAny(key, rows[i], captured))
  }

  lemma {:induction false} KeyedDistinct(key: seq<nat>, rows: seq<Row>, i: nat, k: nat)
    requires Keyed(key, rows) && i < |rows| && k < |rows| && Conflict(key, rows[i], rows[k])
    ensures i == k
  {
  }

  lemma {:induction false} KeyedSeparates(key: seq<nat>, rows: seq<Row>, where: Where)
    requires Keyed(key, rows)
    ensures Separated(key, rows, where, Matching(rows, where))
  {
    var captured := Matching(rows, where);
    MatchingMembers(rows, where);
    forall i | 0 <= i < |rows|
      ensures Holds(where, rows[i]) <==> ConflictsAny(key, rows[i], captured)
    {
      if Holds(where, rows[i]) {
        assert rows[i] in captured;
        var j :| 0 <= j < |captured| && captured[j] == rows[i];
        assert Conflict(key, rows[i], captured[j]);
      } else if ConflictsAny(key, rows[i], captured) {
        var j :| 0 <= j < |captured| && Conflict(key, rows[i], captured[j]);
        assert captured[j] in rows && Holds(where, captured[j]);
        var k :| 0 <= k < |rows| && rows[k] == captured[j];
        KeyedDistinct(key, rows, i, k);
      }
    }
  }

  lemma {:induction false} MatchingUnique(key: seq<nat>, rows: seq<Row>, where: Where)
    requires Keyed(key, rows)
    ensures Keyed(key, Matching(rows, where))
  {
    if rows != [] {
      var later := rows[1..];
      assert Keyed(key, later) by { assert forall i :: 0 <= i < |later| ==> later[i] == rows[i + 1]; }
      MatchingUnique(key, later, where);
      MatchingMembers(later, where);
      var tail := Matching(later, where);
      if Holds(where, rows[0]) {
        var m := Matching(rows, where);
        forall j | 0 < j < |m| ensures !Conflict(key, m[0], m[j]) {
          assert m[j] == tail[j - 1] && tail[j - 1] in later;
          var k :| 0 <= k < |later| && later[k] == m[j];
          assert !Conflict(key, rows[0], rows[k + 1]);
        }
        assert forall j :: 0 < j < |m| ==> m[j] == tail[j - 1];
      }
    }
  }

  lemma {:induction false} KeepSeparated(key: seq<nat>, rows: seq<Row>, where: Where, captured: seq<Row>)
    requires Separated(key, rows, where, captured)
    ensures Keep(key, rows, captured) == Others(rows, where)
    ensures Keep(key, Others(rows, where), captured) == Others(rows, where)
  {
    if rows != [] {
      assert Separated(key, rows[1..], where, captured) by {
        assert forall i :: 0 <= i < |rows[1..]| ==> rows[1..][i] == rows[i + 1];
      }
      KeepSeparated(key, rows[1..], where, captured);
      var later := Others(rows[1..], where);
      if Holds(where, rows[0]) {
        assert Others(rows, where) == later;
      } else {
        KeepStep(key, rows[0], later, captured);
      }
    }
  }

  /** An updated row escapes when its new key is the key of no captured row. */
  predicate Escapes(key: seq<nat>, row: Row, where: Where, assign: Row -> Row, captured: seq<Row>) {
    Holds(where, row) && !ConflictsAny(key, assign(row), captured)
  }

  ghost predicate NoEscape(key: seq<nat>, rows: seq<Row>, where: Where, assign: Row -> Row, captured: seq<Row>) {
    forall i :: 0 <= i < |rows| ==> !Escapes(key, rows[i], where, assign, captured)
  }

  /** After an UPDATE the kept rows are the unmatched ones, plus each row that escaped. */
  lemma {:induction false} KeepRewritten(key: seq<nat>, rows: seq<Row>, where: Where, assign: Row -> Row,
      captured: seq<Row>)
    requires Separated(key, rows, where, captured)
    ensures NoEscape(key, rows, where, assign, captured) ==>
      Keep(key, Rewritten(rows, where, assign), captured) == Others(rows, where)
    ensures |Keep(key, Rewritten(rows, where, assign), captured)| >= |Others(rows, where)|
    ensures !NoEscape(key, rows, where, assign, captured) ==>
      |Keep(key, Rewritten(rows, where, assign), captured)| > |Others(rows, where)|
  {
    if rows != [] {
      var later := rows[1..];
      assert forall i :: 0 <= i < |later| ==> later[i] == rows[i + 1];
      assert Separated(key, later, where, captured);
      KeepRewritten(key, later, where, assign, captured);
      assert NoEscape(key, rows, where, assign, captured) <==>
        !Escapes(key, rows[0], where, assign, captured) && NoEscape(key, later, where, assign, captured)
      by {
        if NoEscape(key, later, where, assign, captured) && !Escapes(key, rows[0], where, assign, captured) {
          forall i | 0 <= i < |rows| ensures !Escapes(key, rows[i], where, assign, captured) {
            if i > 0 { assert rows[i] == later[i - 1]; }
          }
        }
      }
      assert Rewritten(rows, where, assign)[1..] == Rewritten(later, where, assign);
    }
  }

  /** Re-inserting the captured rows after the UPDATE gives back the table's rows
      exactly when no updated row escaped to a new key. */
  lemma {:induction false} UpdateRestored(key: seq<nat>, rows: seq<Row>, where: Where, assign: Row -> Row)
    requires Keyed(key, rows)
    ensures var captured := Matching(rows, where);
      multiset(ReplaceRows(key, Rewritten(rows, where, assign), captured)) == multiset(rows)
      <==> NoEscape(key, rows, where, assign, captured)
  {
    var captured := Matching(rows, where);
    var rewritten := Rewritten(rows, where, assign);
    KeyedSeparates(key, rows, where);
    MatchingUnique(key, rows, where);
    ReplaceRowsIs(key, rewritten, captured);
    KeepRewritten(key, rows, where, assign, captured);
    Partition(rows, where);
    var restored := ReplaceRows(key, rewritten, captured);
    if !NoEscape(key, rows, where, assign, captured) {
      assert |restored| > |Others(rows, where) + captured|;
      assert |multiset(restored)| > |multiset(rows)|;
    }
  }

  /** Re-inserting the captured rows after the DELETE, or after a statement that
      failed, gives back the table's rows. */
  lemma {:induction false} DeleteRestored(key: seq<nat>, rows: seq<Row>, where: Where)
    requires Keyed(key, rows)
    ensures var captured := Matching(rows, where);
      && multiset(ReplaceRows(key, Others(rows, where), captured)) == multiset(rows)
      && multiset(ReplaceRows(key, rows, captured)) == multiset(rows)
  {
    var captured := Matching(rows, where);
    KeyedSeparates(key, rows, where);
    MatchingUnique(key, rows, where);
    ReplaceRowsIs(key, Others(rows, where), captured);
    ReplaceRowsIs(key, rows, captured);
    KeepSeparated(key, rows, where, captured);
    Partition(rows, where);
  }
}
