/** The upstream tool servers: `tools_fs/server.py` over a map from resolved path to text,
    and `tools_db/server.py` over keyed tables. Every answer is a text; a text that
    starts with "error:" is a failure. */
module Tools {
  import opened Records
  import opened Literals
  import opened Database

  /** What a `CREATE TABLE` text declares. */
  datatype TableDef = TableDef(name: string, columns: seq<string>, key: seq<nat>)

  /** The parts of the servers that are not modelled: path resolution inside the sandbox
      (None when the path escapes it), the DDL reader, the reserved words, and what any other
      SQL text does to a database (None when it fails). */
  datatype Platform = Platform(
    resolve: string -> Option<string>,
    ddl: string -> Option<TableDef>,
    reserved: Keywords,
    run: (string, Db) -> Option<Db>)

  type Files = map<string, string>

  datatype World = World(files: Files, db: Db)

  const ERROR := "error:"

  predicate IsError(text: string) {
    ERROR <= text
  }

  // ---- Files ------------------------------------------------------------------

  function ReadAnswer(p: Platform, files: Files, path: string): string {
    match p.resolve(path)
    case None => ERROR + " path escapes sandboxed root: " + path
    case Some(target) => if target in files then files[target] else ERROR + " no such file: " + path
  }

  function WriteFails(p: Platform, path: string): bool {
    p.resolve(path).None?
  }

  function AfterWrite(p: Platform, files: Files, path: string, content: string): Files {
    match p.resolve(path)
    case None => files
    case Some(target) => files[target := content]
  }

  function DeleteFails(p: Platform, files: Files, path: string): bool {
    p.resolve(path).None? || p.resolve(path).value !in files
  }

  function AfterDelete(p: Platform, files: Files, path: string): Files {
    match p.resolve(path)
    case None => files
    case Some(target) => files - {target}
  }

  /** There is a file at the path. */
  predicate Present(p: Platform, files: Files, path: string) {
    p.resolve(path).Some? && p.resolve(path).value in files
  }

  /** What reading tells: the text of a file that is there; an answer that looks like an error
      exactly when there is none, or its own text looks like one. A successful write is read
      back as written, and after a delete there is nothing to read. */
  lemma {:induction false} ReadTells(p: Platform, files: Files, path: string, content: string)
    ensures Present(p, files, path) ==> ReadAnswer(p, files, path) == files[p.resolve(path).value]
    ensures IsError(ReadAnswer(p, files, path)) <==>
      !Present(p, files, path) || IsError(files[p.resolve(path).value])
    ensures !WriteFails(p, path) ==> ReadAnswer(p, AfterWrite(p, files, path, content), path) == content
    ensures IsError(ReadAnswer(p, AfterDelete(p, files, path), path))
  {
    var answer := ReadAnswer(p, files, path);
    assert ERROR <= ERROR + " path escapes sandboxed root: " + path;
    assert ERROR <= ERROR + " no such file: " + path;
  }

  // ---- Tables -----------------------------------------------------------------

  function IndexOf(names: seq<string>, name: string): (i: nat)
    ensures i <= |names|
    ensures i < |names| ==> names[i] == name
    ensures i == |names| ==> name !in names
  {
    if names == [] then 0 else if names[0] == name then 0 else 1 + IndexOf(names[1..], name)
  }

  predicate Distinct(names: seq<string>) {
    forall i, j :: 0 <= i < j < |names| ==> names[i] != names[j]
  }

  /** The row an INSERT with a column list produces; unlisted columns are NULL. */
  function Arrange(columns: seq<string>, listed: seq<string>, values: Row): Row {
    seq(|columns|, i requires 0 <= i < |columns| => At(values, IndexOf(listed, columns[i])))
  }

  predicate ListsKnownColumns(columns: seq<string>, listed: seq<string>) {
    Distinct(listed) && forall i :: 0 <= i < |listed| ==> listed[i] in columns
  }

  /** `execute`: the two kinds of text that compensations consist of are read, the platform
      runs any other. */
  function ExecuteText(p: Platform, db: Db, sql: string): Option<Db> {
    match ReadInsert(p.reserved, sql)
    case Some(ins) =>
      if ins.table !in db then None
      else
        var t := db[ins.table];
        if |ins.values| != |ins.columns| || !ListsKnownColumns(t.columns, ins.columns) then None
        else Some(db[ins.table := t.(rows := ReplaceRow(t.key, t.rows, Arrange(t.columns, ins.columns, ins.values)))])
    case None =>
      match p.ddl(sql)
      case None => p.run(sql, db)
      case Some(def) =>
        if def.name in db then None
        else Some(db[def.name := Table(sql, def.columns, def.key, [])])
  }

  // ---- Calls ------------------------------------------------------------------

  function CallFails(p: Platform, w: World, call: ToolCall): bool {
    match call
    case FsWrite(path, _) => WriteFails(p, path)
    case FsDelete(path) => DeleteFails(p, w.files, path)
    case DbExecute(sql) => ExecuteText(p, w.db, sql).None?
  }

  function AfterCall(p: Platform, w: World, call: ToolCall): World {
    match call
    case FsWrite(path, content) => w.(files := AfterWrite(p, w.files, path, content))
    case FsDelete(path) => w.(files := AfterDelete(p, w.files, path))
    case DbExecute(sql) =>
      match ExecuteText(p, w.db, sql)
      case None => w
      case Some(db) => w.(db := db)
  }

  /** The compensation loop: calls in order, stopping at the first failure. */
  function AfterCalls(p: Platform, w: World, calls: seq<ToolCall>): World
    decreases |calls|
  {
    if calls == [] || CallFails(p, w, calls[0]) then w else AfterCalls(p, AfterCall(p, w, calls[0]), calls[1..])
  }

  function CallsFail(p: Platform, w: World, calls: seq<ToolCall>): bool
    decreases |calls|
  {
    calls != [] && (CallFails(p, w, calls[0]) || CallsFail(p, AfterCall(p, w, calls[0]), calls[1..]))
  }

  // ---- The servers as objects -------------------------------------------------

  lemma {:induction false} AfterCallsExtend(p: Platform, w: World, calls: seq<ToolCall>, next: ToolCall)
    requires !CallsFail(p, w, calls)
    ensures var mid := AfterCalls(p, w, calls);
      && (CallsFail(p, w, calls + [next]) <==> CallFails(p, mid, next))
      && (!CallFails(p, mid, next) ==> AfterCalls(p, w, calls + [next]) == AfterCall(p, mid, next))
    decreases |calls|
  {
    if calls == [] {
      assert calls + [next] == [next];
      assert !CallsFail(p, AfterCall(p, w, next), [next][1..]);
    } else {
      assert (calls + [next])[1..] == calls[1..] + [next];
      AfterCallsExtend(p, AfterCall(p, w, calls[0]), calls[1..], next);
    }
  }

  /** The call at the index fails after all before it went through. */
  predicate FirstFailure(p: Platform, w: World, calls: seq<ToolCall>, at: nat) {
    at < |calls| && !CallsFail(p, w, calls[..at]) && CallFails(p, AfterCalls(p, w, calls[..at]), calls[at])
  }

  /** The calls after the first failure are not made: what follows it in the list does not matter,
      and the world stays as the calls before it left it. */
  lemma {:induction false} FailureEndsTheLoop(p: Platform, w: World, calls: seq<ToolCall>, at: nat)
    requires FirstFailure(p, w, calls, at)
    ensures CallsFail(p, w, calls) && AfterCalls(p, w, calls) == AfterCalls(p, w, calls[..at])
    decreases at
  {
    if at > 0 {
      assert calls[..at][1..] == calls[1..][..at - 1] && calls[..at][0] == calls[0];
      FailureEndsTheLoop(p, AfterCall(p, w, calls[0]), calls[1..], at - 1);
    }
  }

  /** The volume of tools-fs and the database of tools-db behind one upstream pool. */
  class ToolServers {
    const platform: Platform
    var files: Files
    var db: Db

    constructor (platform: Platform, files: Files, db: Db)
      ensures this.platform == platform && Contents() == World(files, db)
    {
      this.platform, this.files, this.db := platform, files, db;
    }

    function Contents(): World
      reads this
    {
      World(files, db)
    }

    method Read(path: string) returns (text: string)
      ensures text == ReadAnswer(platform, files, path)
    {
      match platform.resolve(path)
      case None => text := ERROR + " path escapes sandboxed root: " + path;
      case Some(target) =>
        if target in files {
          text := files[target];
        } else {
          text := ERROR + " no such file: " + path;
        }
    }

    method Write(path: string, content: string) returns (text: string)
      modifies this`files
      ensures files == AfterWrite(platform, old(files), path, content)
      ensures IsError(text) <==> WriteFails(platform, path)
    {
      match platform.resolve(path)
      case None => text := ERROR + " path escapes sandboxed root: " + path;
      case Some(target) =>
        files := files[target := content];
        text := "wrote " + PrintNat(|content|) + " bytes to " + path;
        assert text[0] == 'w';
    }

    method DeleteFile(path: string) returns (text: string)
      modifies this`files
      ensures files == AfterDelete(platform, old(files), path)
      ensures IsError(text) <==> DeleteFails(platform, old(files), path)
    {
      match platform.resolve(path)
      case None => text := ERROR + " path escapes sandboxed root: " + path;
      case Some(target) =>
        if target !in files {
          text := ERROR + " no such file: " + path;
        } else {
          files := files - {target};
          text := "deleted " + path;
          assert text[0] == 'd';
        }
    }

    method ExecuteSql(sql: string) returns (text: string)
      modifies this`db
      ensures IsError(text) <==> ExecuteText(platform, old(db), sql).None?
      ensures db == match ExecuteText(platform, old(db), sql) case None => old(db) case Some(after) => after
    {
      match ExecuteText(platform, db, sql)
      case None => text := ERROR + " statement failed";
      case Some(after) =>
        db := after;
        text := "OK";
    }

    method CallTool(call: ToolCall) returns (text: string)
      modifies this
      ensures IsError(text) <==> CallFails(platform, old(Contents()), call)
      ensures Contents() == AfterCall(platform, old(Contents()), call)
    {
      match call
      case FsWrite(path, content) => text := Write(path, content);
      case FsDelete(path) => text := DeleteFile(path);
      case DbExecute(sql) => text := ExecuteSql(sql);
    }

    /** The loop of `undo_action` over the compensating calls; `failedAt` is the index of
        the call that answered with an error. */
    method RunCompensation(calls: seq<ToolCall>) returns (failedAt: Option<nat>)
      modifies this
      ensures Contents() == AfterCalls(platform, old(Contents()), calls)
      ensures failedAt.Some? <==> CallsFail(platform, old(Contents()), calls)
      ensures failedAt.Some? ==>
        && FirstFailure(platform, old(Contents()), calls, failedAt.value)
        && Contents() == AfterCalls(platform, old(Contents()), calls[..failedAt.value])
    {
      ghost var start := Contents();
      for n := 0 to |calls|
        invariant AfterCalls(platform, start, calls) == AfterCalls(platform, Contents(), calls[n..])
        invariant CallsFail(platform, start, calls) <==> CallsFail(platform, Contents(), calls[n..])
        invariant Contents() == AfterCalls(platform, start, calls[..n])
        invariant !CallsFail(platform, start, calls[..n])
      {
        ghost var before := Contents();
        AfterCallsExtend(platform, start, calls[..n], calls[n]);
        assert calls[..n] + [calls[n]] == calls[..n + 1];
        assert calls[n..][1..] == calls[n + 1..];
        var text := CallTool(calls[n]);
        if IsError(text) {
          assert AfterCall(platform, before, calls[n]) == before;
          return Some(n);
        }
      }
      return None;
    }
  }
}
