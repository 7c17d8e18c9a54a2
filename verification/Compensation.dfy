/** `gateway/undo.py`: the ordinary tool calls that restore a journaled pre-image. */
module Compensation {
  import opened Records
  import opened Literals

  datatype BuildError = UnknownKind(kind: string) | PayloadMismatch(kind: string)

  function InsertCalls(table: string, rows: seq<JsonRow>): seq<ToolCall> {
    seq(|rows|, i requires 0 <= i < |rows| => DbExecute(InsertOrReplace(table, rows[i])))
  }

  function FsCompensation(path: string, content: Option<string>): seq<ToolCall> {
    match content
    case None => [FsDelete(path)]
    case Some(text) => [FsWrite(path, text)]
  }

  /** `build_compensation`, dispatching on the journal's kind string. */
  function BuildCompensation(kind: string, payload: Payload): (r: Result<seq<ToolCall>, BuildError>)
    ensures r.Ok? <==> WellKinded(kind, payload)
    ensures r.Ok? <==> match payload
                       case FilePayload(_, _) => kind == "fs"
                       case RowsPayload(_, _) => kind == "db_rows"
                       case TablePayload(_, _, _) => kind == "db_table"
  {
    if kind == KIND_FS then
      if payload.FilePayload? then Ok(FsCompensation(payload.path, payload.content)) else Err(PayloadMismatch(kind))
    else if kind == KIND_DB_ROWS then
      if payload.RowsPayload? then Ok(InsertCalls(payload.table, payload.rows)) else Err(PayloadMismatch(kind))
    else if kind == KIND_DB_TABLE then
      if payload.TablePayload? then Ok([DbExecute(payload.createSql)] + InsertCalls(payload.table, payload.rows))
      else Err(PayloadMismatch(kind))
    else Err(UnknownKind(kind))
  }

  /** The calls an entry's pre-image synthesizes. */
  function PlanOf(kind: string, payload: Payload): seq<ToolCall> {
    match BuildCompensation(kind, payload)
    case Ok(calls) => calls
    case Err(_) => []
  }
}
