/** `policies/risk_rules.yaml`: the shipped rules, and what they guarantee for every call. */
module ShippedPolicy {
  import opened Records
  import opened RiskEngine

  const SENSITIVE_PATH := "(^|/)(\\.env(\\..+)?|secrets?/|credentials(\\.\\w+)?|\\.ssh/|id_rsa)"

  function OnTools(id: string, level: RiskLevel, tools: seq<string>): RiskRule {
    RiskRule(id, level, Some(tools), map[], None, None)
  }

  function OnSql(id: string, level: RiskLevel, m: SqlMatcher): RiskRule {
    RiskRule(id, level, Some(["db__execute"]), map[], Some(m), None)
  }

  const PROD_TABLE := OnSql("SQL-PROD-TABLE-HIGH", HIGH, SqlMatcher(None, None, false, true, false))
  const DESTRUCTIVE_DDL :=
    OnSql("SQL-DESTRUCTIVE-DDL-HIGH", HIGH, SqlMatcher(Some({Some(Drop), Some(Truncate), Some(Alter)}), None, false,
      false, false))
  const UNBOUNDED_WRITE :=
    OnSql("SQL-UNBOUNDED-WRITE-HIGH", HIGH, SqlMatcher(None, Some({Some(Delete), Some(Update)}), true, false, false))
  const UNRECOGNIZED := OnSql("SQL-UNRECOGNIZED-STATEMENT-HIGH", HIGH, SqlMatcher(None, None, false, false, true))
  const SQL_WRITE :=
    OnSql("SQL-WRITE-MEDIUM", MEDIUM, SqlMatcher(None, Some({Some(Insert), Some(Update), Some(Delete)}), false, false,
      false))
  const SENSITIVE := RiskRule("FS-SENSITIVE-PATH-HIGH", HIGH, Some(["fs__write", "fs__delete"]),
    map["path" := SENSITIVE_PATH], None, None)
  const BROAD_EMAIL := RiskRule("EMAIL-BROAD-RECIPIENTS-HIGH", HIGH, Some(["email__send"]), map[], None, Some(("to",
    10)))

  const SQL_RULES := [PROD_TABLE, DESTRUCTIVE_DDL, UNBOUNDED_WRITE, UNRECOGNIZED, SQL_WRITE]
  const OTHER_RULES := [
    OnTools("SQL-READ-LOW", LOW, ["db__query"]),
    SENSITIVE,
    OnTools("FS-DELETE-HIGH", HIGH, ["fs__delete"]),
    OnTools("FS-WRITE-MEDIUM", MEDIUM, ["fs__write"]),
    OnTools("FS-READ-LOW", LOW, ["fs__read"]),
    OnTools("GIT-FORCE-PUSH-HIGH", HIGH, ["git__force_push"]),
    OnTools("GIT-PUSH-MEDIUM", MEDIUM, ["git__push"]),
    BROAD_EMAIL,
    OnTools("EMAIL-SEND-LOW", LOW, ["email__send"])]

  const POLICY := SQL_RULES + OTHER_RULES

  const PROD_TABLES: set<string> := {"customers", "orders", "payments", "users", "invoices"}

  // ---- Skipping and taking rules ----------------------------------------------

  /** Rules that name their tools do not match a call to another tool. */
  lemma {:induction false} OtherTools(lib: Library, rules: seq<RiskRule>, call: GateCall, facts: Option<SqlFacts>)
    requires forall k :: 0 <= k < |rules| ==> rules[k].tools.Some? && call.tool !in rules[k].tools.value
    ensures FirstMatch(lib, rules, call, facts).None?
  {
    if rules != [] {
      assert forall k :: 0 <= k < |rules[1..]| ==> rules[1..][k] == rules[k + 1];
      OtherTools(lib, rules[1..], call, facts);
    }
  }

  /** The level of a `db__execute` call under the shipped rules. */
  function ExecuteLevel(facts: Option<SqlFacts>): RiskLevel {
    if facts.None? then MEDIUM
    else if facts.value.touchesProdTable || facts.value.unrecognizedStatement
         || facts.value.ddlKind in {Some(Drop), Some(Truncate), Some(Alter)}
         || (facts.value.dmlKind in {Some(Delete), Some(Update)} && facts.value.noWhere) then HIGH
    else MEDIUM
  }

  lemma {:induction false} Single(lib: Library, rule: RiskRule, call: GateCall, facts: Option<SqlFacts>)
    ensures FirstMatch(lib, [rule], call, facts) == if Matches(lib, rule, call, facts) then Some(rule) else None
  {
    assert [rule][1..] == [];
  }

  lemma {:induction false} SqlRulesInOrder(lib: Library, call: GateCall, facts: Option<SqlFacts>)
    ensures var m := FirstMatch(lib, SQL_RULES, call, facts);
      (if m.None? then MEDIUM else m.value.riskLevel) ==
      if Matches(lib, PROD_TABLE, call, facts) || Matches(lib, DESTRUCTIVE_DDL, call, facts)
         || Matches(lib, UNBOUNDED_WRITE, call, facts) || Matches(lib, UNRECOGNIZED, call, facts) then HIGH else MEDIUM
  {
    FirstMatchConcat(lib, [PROD_TABLE, DESTRUCTIVE_DDL], [UNBOUNDED_WRITE, UNRECOGNIZED, SQL_WRITE], call, facts);
    FirstMatchConcat(lib, [PROD_TABLE], [DESTRUCTIVE_DDL], call, facts);
    FirstMatchConcat(lib, [UNBOUNDED_WRITE, UNRECOGNIZED], [SQL_WRITE], call, facts);
    FirstMatchConcat(lib, [UNBOUNDED_WRITE], [UNRECOGNIZED], call, facts);
    assert SQL_RULES == [PROD_TABLE, DESTRUCTIVE_DDL] + [UNBOUNDED_WRITE, UNRECOGNIZED, SQL_WRITE];
    assert [UNBOUNDED_WRITE, UNRECOGNIZED, SQL_WRITE] == [UNBOUNDED_WRITE, UNRECOGNIZED] + [SQL_WRITE];
    assert [PROD_TABLE, DESTRUCTIVE_DDL] == [PROD_TABLE] + [DESTRUCTIVE_DDL];
    assert [UNBOUNDED_WRITE, UNRECOGNIZED] == [UNBOUNDED_WRITE] + [UNRECOGNIZED];
    Single(lib, PROD_TABLE, call, facts);
    Single(lib, DESTRUCTIVE_DDL, call, facts);
    Single(lib, UNBOUNDED_WRITE, call, facts);
    Single(lib, UNRECOGNIZED, call, facts);
    Single(lib, SQL_WRITE, call, facts);
  }

  lemma {:induction false} SqlRulesOnExecute(lib: Library, call: GateCall, facts: Option<SqlFacts>)
    requires call.tool == "db__execute"
    ensures var m := FirstMatch(lib, SQL_RULES, call, facts);
      ExecuteLevel(facts) == if m.None? then MEDIUM else m.value.riskLevel
  {
    assert Matches(lib, PROD_TABLE, call, facts) <==> facts.Some? && facts.value.touchesProdTable;
    assert Matches(lib, DESTRUCTIVE_DDL, call, facts) <==>
      facts.Some? && facts.value.ddlKind in {Some(Drop), Some(Truncate), Some(Alter)};
    assert Matches(lib, UNBOUNDED_WRITE, call, facts) <==>
      facts.Some? && facts.value.dmlKind in {Some(Delete), Some(Update)} && facts.value.noWhere;
    assert Matches(lib, UNRECOGNIZED, call, facts) <==> facts.Some? && facts.value.unrecognizedStatement;
    SqlRulesInOrder(lib, call, facts);
  }

  /** Under the shipped policy a `db__execute` call is HIGH, and so held, exactly when its SQL
      does not parse, touches a production table, is destructive DDL, is an unbounded write,
      or is a statement the parser does not recognise. It is never LOW. */
  lemma {:induction false} ExecuteIsHighExactlyWhen(lib: Library, prodTables: set<string>, call: GateCall)
    requires call.tool == "db__execute"
    ensures var d := Evaluate(lib, POLICY, prodTables, call); var facts := FactsOf(lib, call, prodTables);
      && d.riskLevel != LOW
      && (d.riskLevel == HIGH <==> Unparseable(lib, call) || ExecuteLevel(facts) == HIGH)
  {
    var facts := FactsOf(lib, call, prodTables);
    SqlRulesOnExecute(lib, call, facts);
    FirstMatchConcat(lib, SQL_RULES, OTHER_RULES, call, facts);
    OtherTools(lib, OTHER_RULES, call, facts);
  }

  /** The statements that are held whatever else the call says. */
  ghost predicate Dangerous(lib: Library, s: Parsed, prodTables: set<string>) {
    || s.kind == Drop || s.kind == Truncate || s.kind == Alter || s.kind == Command
    || Unbounded(s) || NamesProdTable(lib, s, prodTables)
  }

  /** The same from the SQL itself: a `db__execute` call whose statement parses is HIGH exactly if it
      drops, truncates or alters, is not recognised, is a DELETE or UPDATE of every row, or names a
      production table; else it is MEDIUM. One whose SQL does not parse is HIGH, and one that
      carries no SQL text is MEDIUM. */
  lemma {:induction false} StatementIsHighExactlyWhen(lib: Library, prodTables: set<string>, call: GateCall)
    requires call.tool == "db__execute"
    ensures forall sql, s :: Carries(call, sql) && lib.parse(sql) == Some(s) ==>
      Evaluate(lib, POLICY, prodTables, call).riskLevel == if Dangerous(lib, s, prodTables) then HIGH else MEDIUM
    ensures forall sql :: Carries(call, sql) && lib.parse(sql) == None ==>
      Evaluate(lib, POLICY, prodTables, call).riskLevel == HIGH
    ensures (forall sql :: !Carries(call, sql)) ==> Evaluate(lib, POLICY, prodTables, call).riskLevel == MEDIUM
  {
    ExecuteIsHighExactlyWhen(lib, prodTables, call);
    forall sql, s | Carries(call, sql) && lib.parse(sql) == Some(s)
      ensures Evaluate(lib, POLICY, prodTables, call).riskLevel == if Dangerous(lib, s,
        prodTables) then HIGH else MEDIUM
    {
      FactsTell(lib, call, prodTables, sql, s);
      assert !Unparseable(lib, call);
    }
    forall sql | Carries(call, sql) && lib.parse(sql) == None
      ensures Evaluate(lib, POLICY, prodTables, call).riskLevel == HIGH
    {
      UnparseableIsHigh(lib, POLICY, prodTables, call, sql);
    }
    if SqlText(call).Some? { assert Carries(call, SqlText(call).value); }
  }

  // ---- The other tools --------------------------------------------------------

  /** Rules for other tools at the front do not matter. */
  lemma {:induction false} SkipOthers(lib: Library, skipped: seq<RiskRule>, rest: seq<RiskRule>, call: GateCall,
      facts: Option<SqlFacts>)
    requires forall k :: 0 <= k < |skipped| ==> skipped[k].tools.Some? && call.tool !in skipped[k].tools.value
    ensures FirstMatch(lib, skipped + rest, call, facts) == FirstMatch(lib, rest, call, facts)
  {
    OtherTools(lib, skipped, call, facts);
    FirstMatchConcat(lib, skipped, rest, call, facts);
  }

  /** The text of the path argument, as the rule's regex sees it. */
  function PathText(call: GateCall): string {
    if "path" in call.arguments then call.arguments["path"].text else ""
  }

  const KNOWN_TOOLS: set<string> :=
    {"db__query", "fs__read", "fs__delete", "fs__write", "git__push", "git__force_push", "email__send"}

  /** The level of every call to another tool than `db__execute`, if the SQL it may carry parses:
      reads and queries are LOW; deleting a file is HIGH; writing one is MEDIUM, but HIGH on a
      sensitive path; a push is MEDIUM, a forced one HIGH; a mail is LOW, but HIGH to a list of ten
      or more; and a tool the policy does not know is MEDIUM. */
  ghost predicate LevelAsShipped(lib: Library, call: GateCall, level: RiskLevel) {
    && (call.tool == "db__query" || call.tool == "fs__read" ==> level == LOW)
    && (call.tool == "fs__delete" || call.tool == "git__force_push" ==> level == HIGH)
    && (call.tool == "git__push" ==> level == MEDIUM)
    && (call.tool == "fs__write" ==> level == if lib.search(SENSITIVE_PATH, PathText(call)) then HIGH else MEDIUM)
    && (call.tool == "email__send" ==>
          level == if "to" in call.arguments && call.arguments["to"].Items? && call.arguments["to"].length >= 10
                   then HIGH else LOW)
    && (call.tool !in KNOWN_TOOLS ==> level == MEDIUM)
  }

  /** Two rules, of which the first is tried first. */
  lemma {:induction false} TwoRules(lib: Library, x: RiskRule, y: RiskRule, call: GateCall, facts: Option<SqlFacts>)
    requires Matches(lib, y, call, facts)
    ensures FirstMatch(lib, [x, y], call, facts) == Some(if Matches(lib, x, call, facts) then x else y)
  {
    assert [x, y] == [x] + [y];
    FirstMatchConcat(lib, [x], [y], call, facts);
    Single(lib, x, call, facts);
    Single(lib, y, call, facts);
  }

  /** Behind rules for other tools, the first rule that matches decides. */
  lemma {:induction false} DecidesBehind(lib: Library, rules: seq<RiskRule>, n: nat, call: GateCall,
      facts: Option<SqlFacts>)
    requires n < |rules| && Matches(lib, rules[n], call, facts)
    requires forall k :: 0 <= k < n ==> rules[k].tools.Some? && call.tool !in rules[k].tools.value
    ensures FirstMatch(lib, rules, call, facts) == Some(rules[n])
  {
    FirstMatchIsLeast(lib, rules, call, facts);
    assert Decides(lib, rules, call, facts, n);
  }

  lemma {:induction false} SensitiveMatches(lib: Library, call: GateCall, facts: Option<SqlFacts>)
    ensures Matches(lib, SENSITIVE, call, facts) <==>
      (call.tool == "fs__write" || call.tool == "fs__delete") && lib.search(SENSITIVE_PATH, PathText(call))
  {
    assert SENSITIVE.argRegex.Keys == {"path"};
    assert "path" in SENSITIVE.argRegex;
  }

  lemma {:induction false} BroadMailMatches(lib: Library, call: GateCall, facts: Option<SqlFacts>)
    ensures Matches(lib, BROAD_EMAIL, call, facts) <==>
      (call.tool == "email__send" && "to" in call.arguments && call.arguments["to"].Items?
       && call.arguments["to"].length >= 10)
  {
  }

  lemma {:induction false} ReadRules(lib: Library, call: GateCall, facts: Option<SqlFacts>)
    requires call.tool == "db__query" || call.tool == "fs__read"
    ensures FirstMatch(lib, OTHER_RULES, call, facts).Some?
    ensures FirstMatch(lib, OTHER_RULES, call, facts).value.riskLevel == LOW
  {
    DecidesBehind(lib, OTHER_RULES, if call.tool == "db__query" then 0 else 4, call, facts);
  }

  lemma {:induction false} DeleteRules(lib: Library, call: GateCall, facts: Option<SqlFacts>)
    requires call.tool == "fs__delete"
    ensures FirstMatch(lib, OTHER_RULES, call, facts).Some?
    ensures FirstMatch(lib, OTHER_RULES, call, facts).value.riskLevel == HIGH
  {
    var rest := OTHER_RULES[3..];
    SkipOthers(lib, OTHER_RULES[..1], OTHER_RULES[1..3] + rest, call, facts);
    assert OTHER_RULES == OTHER_RULES[..1] + (OTHER_RULES[1..3] + rest);
    FirstMatchConcat(lib, OTHER_RULES[1..3], rest, call, facts);
    assert OTHER_RULES[1..3] == [SENSITIVE, OTHER_RULES[2]];
    TwoRules(lib, SENSITIVE, OTHER_RULES[2], call, facts);
  }

  lemma {:induction false} WriteRules(lib: Library, call: GateCall, facts: Option<SqlFacts>)
    requires call.tool == "fs__write"
    ensures FirstMatch(lib, OTHER_RULES, call, facts).Some?
    ensures FirstMatch(lib, OTHER_RULES, call, facts).value.riskLevel
         == if lib.search(SENSITIVE_PATH, PathText(call)) then HIGH else MEDIUM
  {
    SensitiveMatches(lib, call, facts);
    var head, rest := OTHER_RULES[..2], OTHER_RULES[2..];
    assert OTHER_RULES == head + rest && head == [OTHER_RULES[0]] + [SENSITIVE];
    FirstMatchConcat(lib, head, rest, call, facts);
    SkipOthers(lib, [OTHER_RULES[0]], [SENSITIVE], call, facts);
    Single(lib, SENSITIVE, call, facts);
    DecidesBehind(lib, rest, 1, call, facts);
  }

  lemma {:induction false} PushRules(lib: Library, call: GateCall, facts: Option<SqlFacts>)
    requires call.tool == "git__push" || call.tool == "git__force_push"
    ensures FirstMatch(lib, OTHER_RULES, call, facts).Some?
    ensures FirstMatch(lib, OTHER_RULES, call, facts).value.riskLevel
         == if call.tool == "git__push" then MEDIUM else HIGH
  {
    DecidesBehind(lib, OTHER_RULES, if call.tool == "git__push" then 6 else 5, call, facts);
  }

  lemma {:induction false} MailRules(lib: Library, call: GateCall, facts: Option<SqlFacts>)
    requires call.tool == "email__send"
    ensures FirstMatch(lib, OTHER_RULES, call, facts).Some?
    ensures FirstMatch(lib, OTHER_RULES, call, facts).value.riskLevel
         == if Matches(lib, BROAD_EMAIL, call, facts) then HIGH else LOW
  {
    assert OTHER_RULES == OTHER_RULES[..7] + [BROAD_EMAIL, OTHER_RULES[8]];
    SkipOthers(lib, OTHER_RULES[..7], [BROAD_EMAIL, OTHER_RULES[8]], call, facts);
    TwoRules(lib, BROAD_EMAIL, OTHER_RULES[8], call, facts);
  }

  lemma {:induction false} OtherRulesInOrder(lib: Library, call: GateCall, facts: Option<SqlFacts>)
    ensures var m := FirstMatch(lib, OTHER_RULES, call, facts);
      call.tool != "db__execute" ==> LevelAsShipped(lib, call, if m.Some? then m.value.riskLevel else MEDIUM)
  {
    match call.tool
    case "db__query" => ReadRules(lib, call, facts);
    case "fs__read" => ReadRules(lib, call, facts);
    case "fs__delete" => DeleteRules(lib, call, facts);
    case "fs__write" => WriteRules(lib, call, facts);
    case "git__push" => PushRules(lib, call, facts);
    case "git__force_push" => PushRules(lib, call, facts);
    case "email__send" =>
      MailRules(lib, call, facts);
      BroadMailMatches(lib, call, facts);
    case _ => OtherTools(lib, OTHER_RULES, call, facts);
  }

  lemma {:induction false} OtherToolsAsShipped(lib: Library, prodTables: set<string>, call: GateCall)
    requires call.tool != "db__execute"
    requires forall sql :: Carries(call, sql) ==> lib.parse(sql).Some?
    ensures LevelAsShipped(lib, call, Evaluate(lib, POLICY, prodTables, call).riskLevel)
  {
    var facts := FactsOf(lib, call, prodTables);
    if SqlText(call).Some? { assert Carries(call, SqlText(call).value); }
    SkipOthers(lib, SQL_RULES, OTHER_RULES, call, facts);
    OtherRulesInOrder(lib, call, facts);
  }

  lemma {:induction false} ShippedProdRulesDominate()
    ensures ProdRulesDominate(POLICY)
  {
    forall n | 0 <= n < |POLICY| && NeedsProd(POLICY[n]) ensures Dominates(POLICY, n) {
      assert n < |SQL_RULES| ==> POLICY[n] == SQL_RULES[n];
      assert n >= |SQL_RULES| ==> POLICY[n] == OTHER_RULES[n - |SQL_RULES|];
      assert POLICY[n].riskLevel == HIGH;
    }
  }

  /** With the shipped tables tagged, or more, a `db__execute` call whose SQL names one of them
      in any spelling that `str.lower` maps to it is HIGH. */
  lemma {:induction false} ShippedTablesAreHigh(lib: Library, prodTables: set<string>, call: GateCall, name: string,
      written: string)
    requires call.tool == "db__execute" && PROD_TABLES <= prodTables
    requires name in {"customers", "orders", "payments", "users", "invoices"}
    requires SqlText(call).Some? && lib.parse(SqlText(call).value).Some?
    requires written in lib.parse(SqlText(call).value).value.tables && lib.lower(written) == lib.lower(name)
    ensures Evaluate(lib, POLICY, prodTables, call).riskLevel == HIGH
  {
    var parsed := lib.parse(SqlText(call).value).value;
    assert lib.lower(written) in Lowered(lib, parsed.tables) * Lowered(lib, prodTables);
    ExecuteIsHighExactlyWhen(lib, prodTables, call);
  }

  /** So no deployment makes the shipped policy laxer by tagging more tables. */
  lemma {:induction false} ShippedPolicyIsMonotone(lib: Library, small: set<string>, large: set<string>, call: GateCall)
    requires small <= large
    ensures Rank(Evaluate(lib, POLICY, small, call).riskLevel) <= Rank(Evaluate(lib, POLICY, large, call).riskLevel)
  {
    ShippedProdRulesDominate();
    MoreProdTablesNeverLowerRisk(lib, POLICY, small, large, call);
  }

  lemma {:induction false} LowRulesNameReadsAndMail(k: nat)
    requires k < |POLICY| && POLICY[k].riskLevel == LOW
    ensures POLICY[k].tools in {Some(["db__query"]), Some(["fs__read"]), Some(["email__send"])}
  {
    if k >= |SQL_RULES| { assert POLICY[k] == OTHER_RULES[k - |SQL_RULES|]; }
  }

  /** A call rated LOW is a read or a mail: nothing that the journal could be asked to take
      back ever skips the blast-radius estimate. */
  lemma {:induction false} LowIsNeverCompensable(lib: Library, prodTables: set<string>, call: GateCall)
    requires Evaluate(lib, POLICY, prodTables, call).riskLevel == LOW
    ensures call.tool in {"db__query", "fs__read", "email__send"}
    ensures Evaluate(lib, POLICY, prodTables, call).reversibility != COMPENSABLE
  {
    var facts := FactsOf(lib, call, prodTables);
    FirstMatchIsLeast(lib, POLICY, call, facts);
    var n: nat :| Decides(lib, POLICY, call, facts, n);
    LowRulesNameReadsAndMail(n);
  }
}
