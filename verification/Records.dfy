/** The records of `store/models.py` and `risk/models.py`, and the values that
    pass between the gateway and its tool servers. */
module Records {
  datatype Option<+T> = None | Some(value: T)

  datatype Result<+T, +E> = Ok(value: T) | Err(error: E)

  datatype RiskLevel = LOW | MEDIUM | HIGH

  datatype Reversibility = REVERSIBLE | COMPENSABLE | IRREVERSIBLE

  datatype Status = PENDING | AUTO_ALLOWED | APPROVED | DENIED | EXPIRED

  /** A row of the `actions` table. */
  datatype Action = Action(
    actionId: string,
    traceId: string,
    agentId: string,
    tool: string,
    resourceName: Option<string>,
    argsSummary: Option<string>,
    riskLevel: RiskLevel,
    ruleId: string,
    status: Status,
    decidedBy: Option<string>,
    requestedAt: real,
    resolvedAt: Option<real>,
    reversibility: Reversibility,
    blastRadius: Option<string>,
    novel: bool)

  /** What a resolution decides about a row: the triple that `resolve_action` writes. */
  datatype Outcome = Outcome(status: Status, decidedBy: Option<string>, resolvedAt: Option<real>)

  function OutcomeOf(row: Action): Outcome {
    Outcome(row.status, row.decidedBy, row.resolvedAt)
  }

  /** The statuses under which the gateway executes the call. */
  predicate Executable(status: Status) {
    status == APPROVED || status == AUTO_ALLOWED
  }

  /** What the risk engine hands to `submit`. */
  datatype RiskDecision = RiskDecision(riskLevel: RiskLevel, ruleId: string, reversibility: Reversibility)

  // ---- Journal and tool calls -------------------------------------------------

  /** A JSON scalar as `json.loads` yields it (floats are not modelled). */
  datatype JsonValue = JsonNull | JsonBool(b: bool) | JsonInt(i: int) | JsonText(s: string)

  /** One entry of a row dictionary; a row keeps the dictionary's insertion order. */
  datatype Cell = Cell(column: string, value: JsonValue)

  type JsonRow = seq<Cell>

  const KIND_FS := "fs"
  const KIND_DB_ROWS := "db_rows"
  const KIND_DB_TABLE := "db_table"

  datatype Payload =
    | FilePayload(path: string, content: Option<string>)
    | RowsPayload(table: string, rows: seq<JsonRow>)
    | TablePayload(table: string, createSql: string, rows: seq<JsonRow>)

  datatype JournalEntry = JournalEntry(
    actionId: string,
    kind: string,
    payload: Payload,
    createdAt: real,
    undoneAt: Option<real>,
    undoActionId: Option<string>)

  /** The three shapes `JournalRecorder` writes: each kind with the payload that belongs to it. */
  predicate WellKinded(kind: string, payload: Payload) {
    match payload
    case FilePayload(_, _) => kind == KIND_FS
    case RowsPayload(_, _) => kind == KIND_DB_ROWS
    case TablePayload(_, _, _) => kind == KIND_DB_TABLE
  }

  /** The tool calls a compensation is made of. */
  datatype ToolCall =
    | FsWrite(path: string, content: string)
    | FsDelete(path: string)
    | DbExecute(sql: string)
}
