/** `risk/reversibility.py` against `gateway/journal.py`: the calls that capture can journal are
    among those that the risk engine classifies as compensable, so none of them is passed over. */
module Classified {
  import opened Records
  import opened Database
  import opened Tools
  import opened Capture
  import RiskEngine

  /** The statement is what the parser made of the text, as far as the risk engine looks. */
  predicate ParsesTo(kind: RiskEngine.StatementKind, s: Statement) {
    match s
    case Update(_, _, _, _) => kind == RiskEngine.Update
    case Delete(_, _, _) => kind == RiskEngine.Delete
    case DropTable(_, _) => kind == RiskEngine.Drop
    case OtherStatement => kind != RiskEngine.Update && kind != RiskEngine.Delete
  }

  /** The approved call is what the gateway call asks for. */
  ghost predicate AsksFor(lib: RiskEngine.Library, call: RiskEngine.GateCall, approved: ApprovedCall) {
    match approved
    case WriteFile(_, _) => call.tool == "fs__write"
    case RemoveFile(_) => call.tool == "fs__delete"
    case RunSql(s) =>
      call.tool == "db__execute" && exists sql, parsed: RiskEngine.Parsed ::
        RiskEngine.Carries(call, sql) && lib.parse(sql) == Some(parsed) && ParsesTo(parsed.kind, s)
    case OtherCall => call.tool !in {"fs__write", "fs__delete", "db__execute"}
  }

  /** Whatever the policy, a call that capture would journal is classified COMPENSABLE; and of the
      calls so classified only INSERT, CREATE, other DROPs, an empty path and a missing table are
      not journaled. */
  lemma {:induction false} JournaledIsCompensable(lib: RiskEngine.Library, rules: seq<RiskEngine.RiskRule>,
      prodTables: set<string>, call: RiskEngine.GateCall, approved: ApprovedCall, w: World)
    requires AsksFor(lib, call, approved)
    ensures var r := RiskEngine.Evaluate(lib, rules, prodTables, call).reversibility;
      && (Journals(w, approved) ==> r == COMPENSABLE)
      && (approved.OtherCall? ==> r != COMPENSABLE)
      && (approved.WriteFile? || approved.RemoveFile? ==> r == COMPENSABLE)
      && (approved.RunSql? && !approved.statement.OtherStatement? ==> r == COMPENSABLE)
  {
    RiskEngine.ReversibilityTells(lib, rules, prodTables, call);
  }
}
