/** `risk/engine.py`, `risk/sql_facts.py` and `risk/reversibility.py`: the ordered,
    first-match policy interpreter over parsed statements. */
module RiskEngine {
  import opened Records

  // ---- Parsed SQL and its facts -----------------------------------------------

  datatype StatementKind = Drop | Truncate | Alter | Create | Insert | Update | Delete | Select | Command | Unlisted

  /** The conditions `_is_tautological` looks into. */
  datatype Condition = BoolLiteral(b: bool) | LiteralEquality(left: string, right: string) | OtherCondition

  /** `tables` are the names as written. */
  datatype Parsed = Parsed(kind: StatementKind, tables: set<string>, where: Option<Condition>)

  datatype SqlFacts = SqlFacts(
    ddlKind: Option<StatementKind>,
    dmlKind: Option<StatementKind>,
    noWhere: bool,
    tables: set<string>,
    touchesProdTable: bool,
    unrecognizedStatement: bool)

  /** What the engine leaves to libraries: the parser (None on a ParseError), `str.lower`,
      and `re.search`. */
  datatype Library = Library(
    parse: string -> Option<Parsed>,
    lower: string -> string,
    search: (string, string) -> bool)

  predicate IsTautological(where: Condition) {
    match where
    case BoolLiteral(b) => b
    case LiteralEquality(left, right) => left == right
    case OtherCondition => false
  }

  function Lowered(lib: Library, names: set<string>): set<string> {
    set n | n in names :: lib.lower(n)
  }

  function ExtractSqlFacts(lib: Library, s: Parsed, prodTables: set<string>): SqlFacts {
    var ddl := if s.kind in {Drop, Truncate, Alter, Create} then Some(s.kind) else None;
    var dml := if s.kind in {Insert, Update, Delete, Select} then Some(s.kind) else None;
    var bounded := s.kind == Delete || s.kind == Update;
    var tables := Lowered(lib, s.tables);
    SqlFacts(ddl, dml, bounded && (s.where.None? || IsTautological(s.where.value)), tables,
             tables * Lowered(lib, prodTables) != {}, s.kind == Command)
  }

  // ---- Calls and rules --------------------------------------------------------

  /** A JSON argument: its `str()` text, whether it is a string or a list, and whether it is falsy. */
  datatype Argument = Text(text: string) | Items(text: string, length: nat) | OtherArgument(text: string, falsy: bool)

  datatype GateCall = GateCall(tool: string, arguments: map<string, Argument>)

  datatype SqlMatcher = SqlMatcher(
    ddlKinds: Option<set<Option<StatementKind>>>,
    dmlKinds: Option<set<Option<StatementKind>>>,
    noWhere: bool,
    touchesProdTable: bool,
    unrecognizedStatement: bool)

  datatype RiskRule = RiskRule(
    id: string,
    riskLevel: RiskLevel,
    tools: Option<seq<string>>,
    argRegex: map<string, string>,
    sql: Option<SqlMatcher>,
    recipients: Option<(string, int)>)

  function ArgumentText(call: GateCall, name: string): string {
    if name in call.arguments then call.arguments[name].text else ""
  }

  /** `arguments.get(arg) or []`, then the length of a list; None for anything else. */
  function RecipientCount(call: GateCall, name: string): Option<nat> {
    if name !in call.arguments then Some(0)
    else match call.arguments[name]
      case Items(_, n) => Some(n)
      case Text(t) => if t == "" then Some(0) else None
      case OtherArgument(_, falsy) => if falsy then Some(0) else None
  }

  predicate SqlMatches(m: SqlMatcher, facts: SqlFacts) {
    && (m.ddlKinds.Some? ==> facts.ddlKind in m.ddlKinds.value)
    && (m.dmlKinds.Some? ==> facts.dmlKind in m.dmlKinds.value)
    && (m.noWhere ==> facts.noWhere)
    && (m.touchesProdTable ==> facts.touchesProdTable)
    && (m.unrecognizedStatement ==> facts.unrecognizedStatement)
  }

  /** `_matches` */
  predicate Matches(lib: Library, rule: RiskRule, call: GateCall, facts: Option<SqlFacts>) {
    && (rule.tools.Some? ==> call.tool in rule.tools.value)
    && (forall name :: name in rule.argRegex ==> lib.search(rule.argRegex[name], ArgumentText(call, name)))
    && (rule.sql.Some? ==> facts.Some? && SqlMatches(rule.sql.value, facts.value))
    && (rule.recipients.Some? ==>
          var n := RecipientCount(call, rule.recipients.value.0);
          n.Some? && n.value >= rule.recipients.value.1)
  }

  // ---- Reversibility ----------------------------------------------------------

  function Classify(tool: string, facts: Option<SqlFacts>): Reversibility {
    if tool in {"db__query", "fs__read"} then REVERSIBLE
    else if tool in {"fs__write", "fs__delete"} then COMPENSABLE
    else if tool in {"email__send", "git__push", "git__force_push"} then IRREVERSIBLE
    else if tool == "db__execute" && facts.Some? then
      if facts.value.dmlKind == Some(Select) then REVERSIBLE
      else if facts.value.ddlKind.Some? then
        if facts.value.ddlKind.value in {Drop, Create} then COMPENSABLE else IRREVERSIBLE
      else if facts.value.dmlKind.Some? && facts.value.dmlKind.value in {Insert, Update, Delete} then COMPENSABLE
      else IRREVERSIBLE
    else IRREVERSIBLE
  }

  // ---- Evaluation -------------------------------------------------------------

  const PARSE_ERROR_RULE := "SQL-PARSE-ERROR-FAIL-CLOSED"
  const UNMATCHED_RULE := "UNMATCHED-FAIL-CLOSED"

  predicate IsBlank(s: string) {
    forall i :: 0 <= i < |s| ==> s[i] in {' ', '\t', '\n', '\r'}
  }

  /** The SQL text the engine parses, if the call carries one. */
  function SqlText(call: GateCall): Option<string> {
    if "sql" in call.arguments && call.arguments["sql"].Text? && !IsBlank(call.arguments["sql"].text)
    then Some(call.arguments["sql"].text)
    else None
  }

  /** The call's SQL is present and does not parse. */
  predicate Unparseable(lib: Library, call: GateCall) {
    SqlText(call).Some? && lib.parse(SqlText(call).value).None?
  }

  function FactsOf(lib: Library, call: GateCall, prodTables: set<string>): Option<SqlFacts> {
    match SqlText(call)
    case None => None
    case Some(sql) =>
      match lib.parse(sql)
      case None => None
      case Some(parsed) => Some(ExtractSqlFacts(lib, parsed, prodTables))
  }

  /** The loop of `evaluate` with its early return. */
  function FirstMatch(lib: Library, rules: seq<RiskRule>, call: GateCall, facts: Option<SqlFacts>): Option<RiskRule> {
    if rules == [] then None
    else if Matches(lib, rules[0], call, facts) then Some(rules[0])
    else FirstMatch(lib, rules[1..], call, facts)
  }

  /** `RiskEngine.evaluate` */
  function Evaluate(lib: Library, rules: seq<RiskRule>, prodTables: set<string>, call: GateCall): RiskDecision {
    if Unparseable(lib, call) then RiskDecision(HIGH, PARSE_ERROR_RULE, Classify(call.tool, None))
    else
      var facts := FactsOf(lib, call, prodTables);
      var reversibility := Classify(call.tool, facts);
      match FirstMatch(lib, rules, call, facts)
      case None => RiskDecision(MEDIUM, UNMATCHED_RULE, reversibility)
      case Some(rule) => RiskDecision(rule.riskLevel, rule.id, reversibility)
  }

  // ---- First match ------------------------------------------------------------

  /** Rule `n` is the least-index rule that matches. */
  ghost predicate Decides(lib: Library, rules: seq<RiskRule>, call: GateCall, facts: Option<SqlFacts>, n: nat) {
    && n < |rules| && Matches(lib, rules[n], call, facts)
    && forall k :: 0 <= k < n ==> !Matches(lib, rules[k], call, facts)
  }

  lemma {:induction false} FirstMatchIsLeast(lib: Library, rules: seq<RiskRule>, call: GateCall,
      facts: Option<SqlFacts>)
    ensures FirstMatch(lib, rules, call, facts).None? <==> forall k :: 0 <= k < |rules| ==>
      !Matches(lib, rules[k], call, facts)
    ensures forall n: nat :: Decides(lib, rules, call, facts, n) ==>
      FirstMatch(lib, rules, call, facts) == Some(rules[n])
    ensures FirstMatch(lib, rules, call, facts).Some? ==> exists n: nat :: Decides(lib, rules, call, facts, n)
  {
    if rules != [] {
      var later := rules[1..];
      FirstMatchIsLeast(lib, later, call, facts);
      assert forall k :: 0 <= k < |later| ==> later[k] == rules[k + 1];
      if Matches(lib, rules[0], call, facts) {
        assert Decides(lib, rules, call, facts, 0);
      } else {
        forall n: nat | Decides(lib, rules, call, facts, n)
          ensures FirstMatch(lib, rules, call, facts) == Some(rules[n]) {
          assert Decides(lib, later, call, facts, n - 1);
        }
        if FirstMatch(lib, rules, call, facts).Some? {
          var n: nat :| Decides(lib, later, call, facts, n);
          assert Decides(lib, rules, call, facts, n + 1);
        }
        assert (forall k :: 0 <= k < |rules| ==> !Matches(lib, rules[k], call, facts)) <==>
          (forall k :: 0 <= k < |later| ==> !Matches(lib, later[k], call, facts))
        by {
          if forall k :: 0 <= k < |later| ==> !Matches(lib, later[k], call, facts) {
            forall k | 0 <= k < |rules| ensures !Matches(lib, rules[k], call, facts) {
              if k > 0 { assert rules[k] == later[k - 1]; }
            }
          }
        }
      }
    }
  }

  /** The decision is HIGH on unparseable SQL before any rule; else the least-index matching
      rule's; else MEDIUM. */
  lemma {:induction false} EvaluateIsFirstMatch(lib: Library, rules: seq<RiskRule>, prodTables: set<string>,
      call: GateCall)
    ensures var d := Evaluate(lib, rules, prodTables, call); var facts := FactsOf(lib, call, prodTables);
      && (Unparseable(lib, call) ==> d.riskLevel == HIGH && d.ruleId == PARSE_ERROR_RULE)
      && (!Unparseable(lib, call) ==>
           && (forall n: nat :: Decides(lib, rules, call, facts, n) ==>
             d.riskLevel == rules[n].riskLevel && d.ruleId == rules[n].id)
           && ((forall k :: 0 <= k < |rules| ==> !Matches(lib, rules[k], call, facts)) ==>
             d.riskLevel == MEDIUM && d.ruleId == UNMATCHED_RULE)
           && ((forall n: nat :: !Decides(lib, rules, call, facts, n)) ==> d.riskLevel == MEDIUM))
  {
    FirstMatchIsLeast(lib, rules, call, FactsOf(lib, call, prodTables));
  }

  // ---- From the parsed statement ----------------------------------------------

  /** The call carries an SQL text that is more than blanks. */
  ghost predicate Carries(call: GateCall, sql: string) {
    && "sql" in call.arguments && call.arguments["sql"] == Text(sql)
    && exists i :: 0 <= i < |sql| && sql[i] != ' ' && sql[i] != '\t' && sql[i] != '\n' && sql[i] != '\r'
  }

  /** SQL that does not parse is HIGH under any policy. */
  lemma {:induction false} UnparseableIsHigh(lib: Library, rules: seq<RiskRule>, prodTables: set<string>,
      call: GateCall, sql: string)
    requires Carries(call, sql) && lib.parse(sql) == None
    ensures Evaluate(lib, rules, prodTables, call).riskLevel == HIGH
    ensures Evaluate(lib, rules, prodTables, call).ruleId == "SQL-PARSE-ERROR-FAIL-CLOSED"
  {
    assert SqlText(call) == Some(sql);
  }

  /** A DELETE or UPDATE that reaches every row: its WHERE is absent, a true literal, or equates a
      literal with itself. */
  ghost predicate Unbounded(s: Parsed) {
    && (s.kind == Delete || s.kind == Update)
    && (s.where == None || s.where == Some(BoolLiteral(true)) || exists x :: s.where == Some(LiteralEquality(x, x)))
  }

  /** Some table is written in a spelling that `str.lower` takes to that of a production table. */
  ghost predicate NamesProdTable(lib: Library, s: Parsed, prodTables: set<string>) {
    exists written, name :: written in s.tables && name in prodTables && lib.lower(written) == lib.lower(name)
  }

  lemma {:induction false} ProdFact(lib: Library, s: Parsed, prodTables: set<string>)
    ensures ExtractSqlFacts(lib, s, prodTables).touchesProdTable <==> NamesProdTable(lib, s, prodTables)
  {
    var written, prod := Lowered(lib, s.tables), Lowered(lib, prodTables);
    if written * prod != {} {
      var x :| x in written * prod;
      var w :| w in s.tables && lib.lower(w) == x;
      var n :| n in prodTables && lib.lower(n) == x;
    }
    if w, n :| w in s.tables && n in prodTables && lib.lower(w) == lib.lower(n) {
      assert lib.lower(w) in written * prod;
    }
  }

  /** What the facts say of a statement. */
  lemma {:induction false} FactsTell(lib: Library, call: GateCall, prodTables: set<string>, sql: string, s: Parsed)
    requires Carries(call, sql) && lib.parse(sql) == Some(s)
    ensures FactsOf(lib, call, prodTables).Some?
    ensures var facts := FactsOf(lib, call, prodTables).value;
      && (facts.noWhere <==> Unbounded(s)) && (facts.touchesProdTable <==> NamesProdTable(lib, s, prodTables))
      && (facts.unrecognizedStatement <==> s.kind == Command)
      && facts.ddlKind == (if s.kind in {Drop, Truncate, Alter, Create} then Some(s.kind) else None)
      && facts.dmlKind == (if s.kind in {Insert, Update, Delete, Select} then Some(s.kind) else None)
  {
    assert SqlText(call) == Some(sql);
    ProdFact(lib, s, prodTables);
    if s.where.Some? && s.where.value.LiteralEquality? && s.where.value.left == s.where.value.right {
      assert s.where == Some(LiteralEquality(s.where.value.left, s.where.value.left));
    }
  }

  /** How a call can be taken back: by its tool, and for `db__execute` by its parsed statement. */
  lemma {:induction false} ReversibilityTells(lib: Library, rules: seq<RiskRule>, prodTables: set<string>,
      call: GateCall)
    ensures var r := Evaluate(lib, rules, prodTables, call).reversibility;
      && (call.tool == "db__query" || call.tool == "fs__read" ==> r == REVERSIBLE)
      && (call.tool == "fs__write" || call.tool == "fs__delete" ==> r == COMPENSABLE)
      && (call.tool !in {"db__query", "fs__read", "fs__write", "fs__delete", "db__execute"} ==> r == IRREVERSIBLE)
    ensures forall sql, s :: call.tool == "db__execute" && Carries(call, sql) && lib.parse(sql) == Some(s) ==>
      Evaluate(lib, rules, prodTables, call).reversibility ==
        if s.kind == Select then REVERSIBLE
        else if s.kind in {Drop, Create, Insert, Update, Delete} then COMPENSABLE
        else IRREVERSIBLE
    ensures call.tool == "db__execute" && (forall sql :: Carries(call, sql) ==> lib.parse(sql) == None) ==>
      Evaluate(lib, rules, prodTables, call).reversibility == IRREVERSIBLE
  {
    forall sql, s | call.tool == "db__execute" && Carries(call, sql) && lib.parse(sql) == Some(s)
      ensures Classify(call.tool, FactsOf(lib, call, prodTables)) ==
        if s.kind == Select then REVERSIBLE
        else if s.kind in {Drop, Create, Insert, Update, Delete} then COMPENSABLE
        else IRREVERSIBLE
    {
      FactsTell(lib, call, prodTables, sql, s);
    }
    if SqlText(call).Some? {
      assert Carries(call, SqlText(call).value);
    }
  }

  // ---- Editing a policy -------------------------------------------------------

  lemma {:induction false} FirstMatchConcat(lib: Library, a: seq<RiskRule>, b: seq<RiskRule>, call: GateCall,
      facts: Option<SqlFacts>)
    ensures FirstMatch(lib, a + b, call, facts) ==
      if FirstMatch(lib, a, call, facts).Some? then FirstMatch(lib, a, call, facts) else FirstMatch(lib, b, call, facts)
  {
    if a == [] {
      assert a + b == b;
    } else {
      assert (a + b)[1..] == a[1..] + b;
      FirstMatchConcat(lib, a[1..], b, call, facts);
    }
  }

  /** Rules after the first match do not matter. */
  lemma {:induction false} EditsAfterTheMatch(lib: Library, prefix: seq<RiskRule>, a: seq<RiskRule>, b: seq<RiskRule>,
      prodTables: set<string>, call: GateCall)
    requires exists k :: 0 <= k < |prefix| && Matches(lib, prefix[k], call, FactsOf(lib, call, prodTables))
    ensures Evaluate(lib, prefix + a, prodTables, call) == Evaluate(lib, prefix + b, prodTables, call)
  {
    var facts := FactsOf(lib, call, prodTables);
    FirstMatchIsLeast(lib, prefix, call, facts);
    FirstMatchConcat(lib, prefix, a, call, facts);
    FirstMatchConcat(lib, prefix, b, call, facts);
  }

  /** A rule the call does not match can be inserted anywhere. */
  lemma {:induction false} InsertingAnUnmatchedRule(lib: Library, a: seq<RiskRule>, rule: RiskRule, b: seq<RiskRule>,
      prodTables: set<string>, call: GateCall)
    requires !Matches(lib, rule, call, FactsOf(lib, call, prodTables))
    ensures Evaluate(lib, a + ([rule] + b), prodTables, call) == Evaluate(lib, a + b, prodTables, call)
  {
    var facts := FactsOf(lib, call, prodTables);
    FirstMatchConcat(lib, a, [rule] + b, call, facts);
    FirstMatchConcat(lib, [rule], b, call, facts);
    FirstMatchConcat(lib, a, b, call, facts);
    assert [rule][1..] == [];
  }

  /** Adjacent rules that the call does not match jointly can be swapped. */
  lemma {:induction false} SwappingDisjointRules(lib: Library, a: seq<RiskRule>, x: RiskRule, y: RiskRule,
      b: seq<RiskRule>, prodTables: set<string>, call: GateCall)
    requires var facts := FactsOf(lib, call, prodTables);
      !(Matches(lib, x, call, facts) && Matches(lib, y, call, facts))
    ensures Evaluate(lib, a + ([x, y] + b), prodTables, call) == Evaluate(lib, a + ([y, x] + b), prodTables, call)
  {
    var facts := FactsOf(lib, call, prodTables);
    FirstMatchConcat(lib, a, [x, y] + b, call, facts);
    FirstMatchConcat(lib, a, [y, x] + b, call, facts);
    FirstMatchConcat(lib, [x, y], b, call, facts);
    FirstMatchConcat(lib, [y, x], b, call, facts);
    assert [x, y][1..] == [y] && [y, x][1..] == [x] && [x][1..] == [] && [y][1..] == [];
  }

  // ---- Growing the set of production tables -----------------------------------

  function Rank(level: RiskLevel): nat {
    match level
    case LOW => 0
    case MEDIUM => 1
    case HIGH => 2
  }

  predicate NeedsProd(rule: RiskRule) {
    rule.sql.Some? && rule.sql.value.touchesProdTable
  }

  ghost predicate Dominates(rules: seq<RiskRule>, n: nat)
    requires n < |rules|
  {
    && Rank(rules[n].riskLevel) >= Rank(MEDIUM)
    && forall k :: n < k < |rules| && !NeedsProd(rules[k]) ==> Rank(rules[n].riskLevel) >= Rank(rules[k].riskLevel)
  }

  /** Every rule that asks for a production table is at least MEDIUM, and no later rule that
      asks for none ranks above it. */
  ghost predicate ProdRulesDominate(rules: seq<RiskRule>) {
    forall n :: 0 <= n < |rules| && NeedsProd(rules[n]) ==> Dominates(rules, n)
  }

  /** The same facts, except that a production table may now be touched. */
  ghost predicate MoreProd(small: Option<SqlFacts>, large: Option<SqlFacts>) {
    && (small.Some? <==> large.Some?)
    && (small.Some? ==>
          && small.value.(touchesProdTable := large.value.touchesProdTable) == large.value
          && (small.value.touchesProdTable ==> large.value.touchesProdTable))
  }

  lemma {:induction false} FactsGrow(lib: Library, call: GateCall, small: set<string>, large: set<string>)
    requires small <= large
    ensures MoreProd(FactsOf(lib, call, small), FactsOf(lib, call, large))
    ensures Classify(call.tool, FactsOf(lib, call, small)) == Classify(call.tool, FactsOf(lib, call, large))
  {
    assert Lowered(lib, small) <= Lowered(lib, large);
    var facts := FactsOf(lib, call, small);
    if facts.Some? && facts.value.touchesProdTable {
      assert facts.value.tables * Lowered(lib, small) <= facts.value.tables * Lowered(lib, large);
    }
  }

  ghost function LevelOf(lib: Library, rules: seq<RiskRule>, call: GateCall, facts: Option<SqlFacts>): RiskLevel {
    match FirstMatch(lib, rules, call, facts)
    case None => MEDIUM
    case Some(rule) => rule.riskLevel
  }

  /** The first match asks for a production table. */
  predicate ProdRuleDecides(lib: Library, rules: seq<RiskRule>, call: GateCall, facts: Option<SqlFacts>) {
    FirstMatch(lib, rules, call, facts).Some? && NeedsProd(FirstMatch(lib, rules, call, facts).value)
  }

  lemma {:induction false} RuleUnderMoreProd(lib: Library, rule: RiskRule, call: GateCall, small: Option<SqlFacts>,
      large: Option<SqlFacts>)
    requires MoreProd(small, large) && small != large
    ensures NeedsProd(rule) ==> !Matches(lib, rule, call, small)
    ensures !NeedsProd(rule) ==> (Matches(lib, rule, call, small) <==> Matches(lib, rule, call, large))
  {
    assert small.Some? && !small.value.touchesProdTable && large.value.touchesProdTable;
  }

  /** With more production tables either a production rule decides, or the same rule as before. */
  lemma {:induction false} SameUnlessProdRuleDecides(lib: Library, rules: seq<RiskRule>, call: GateCall,
      small: Option<SqlFacts>, large: Option<SqlFacts>)
    requires MoreProd(small, large)
    ensures ProdRuleDecides(lib, rules, call, large) || FirstMatch(lib, rules, call, small) ==
      FirstMatch(lib, rules, call, large)
  {
    if rules != [] && small != large {
      RuleUnderMoreProd(lib, rules[0], call, small, large);
      SameUnlessProdRuleDecides(lib, rules[1..], call, small, large);
    }
  }

  /** A call's level drops exactly when, with the larger set, a production rule decides and
      ranks below the level the call had. */
  lemma {:induction false} LevelDropsExactlyWhen(lib: Library, rules: seq<RiskRule>, small: set<string>,
      large: set<string>, call: GateCall)
    requires small <= large
    ensures var facts := FactsOf(lib, call, large); var level := Evaluate(lib, rules, small, call).riskLevel;
      Rank(Evaluate(lib, rules, large, call).riskLevel) < Rank(level)
      <==> !Unparseable(lib, call) && ProdRuleDecides(lib, rules, call, facts)
           && Rank(FirstMatch(lib, rules, call, facts).value.riskLevel) < Rank(level)
    ensures Evaluate(lib, rules, small, call).reversibility == Evaluate(lib, rules, large, call).reversibility
  {
    FactsGrow(lib, call, small, large);
    SameUnlessProdRuleDecides(lib, rules, call, FactsOf(lib, call, small), FactsOf(lib, call, large));
  }

  lemma {:induction false} DominationOfRest(rules: seq<RiskRule>)
    requires rules != [] && ProdRulesDominate(rules)
    ensures ProdRulesDominate(rules[1..])
  {
    forall n | 0 <= n < |rules[1..]| && NeedsProd(rules[1..][n]) ensures Dominates(rules[1..], n) {
      assert Dominates(rules, n + 1);
      assert forall k :: 0 <= k < |rules[1..]| ==> rules[1..][k] == rules[k + 1];
    }
  }

  lemma {:induction false} FirstMatchIsARule(lib: Library, rules: seq<RiskRule>, call: GateCall,
      facts: Option<SqlFacts>)
    requires FirstMatch(lib, rules, call, facts).Some?
    ensures exists k ::
      0 <= k < |rules| && rules[k] == FirstMatch(lib, rules, call, facts).value && Matches(lib, rules[k], call, facts)
  {
    FirstMatchIsLeast(lib, rules, call, facts);
    var k: nat :| Decides(lib, rules, call, facts, k);
  }

  /** A dominating first rule ranks no lower than what decides without it. */
  lemma {:induction false} DominatesTheRest(lib: Library, rules: seq<RiskRule>, call: GateCall,
      small: Option<SqlFacts>, large: Option<SqlFacts>)
    requires rules != [] && Dominates(rules, 0) && NeedsProd(rules[0]) && MoreProd(small, large) && small != large
    ensures Rank(LevelOf(lib, rules, call, small)) <= Rank(rules[0].riskLevel)
  {
    RuleUnderMoreProd(lib, rules[0], call, small, large);
    if FirstMatch(lib, rules, call, small).Some? {
      FirstMatchIsARule(lib, rules, call, small);
      var k :| 0 <= k < |rules| && rules[k] == FirstMatch(lib, rules, call, small).value
        && Matches(lib, rules[k], call, small);
      RuleUnderMoreProd(lib, rules[k], call, small, large);
    }
  }

  lemma {:induction false} LevelGrows(lib: Library, rules: seq<RiskRule>, call: GateCall, small: Option<SqlFacts>,
      large: Option<SqlFacts>)
    requires ProdRulesDominate(rules) && MoreProd(small, large)
    ensures Rank(LevelOf(lib, rules, call, small)) <= Rank(LevelOf(lib, rules, call, large))
  {
    if rules != [] && small != large {
      DominationOfRest(rules);
      LevelGrows(lib, rules[1..], call, small, large);
      RuleUnderMoreProd(lib, rules[0], call, small, large);
      if NeedsProd(rules[0]) {
        DominatesTheRest(lib, rules, call, small, large);
      }
    }
  }

  /** Tagging more tables as production never lowers the risk level of any call, under any
      policy whose production rules dominate. */
  lemma {:induction false} MoreProdTablesNeverLowerRisk(lib: Library, rules: seq<RiskRule>, small: set<string>,
      large: set<string>, call: GateCall)
    requires ProdRulesDominate(rules) && small <= large
    ensures Rank(Evaluate(lib, rules, small, call).riskLevel) <= Rank(Evaluate(lib, rules, large, call).riskLevel)
  {
    FactsGrow(lib, call, small, large);
    if !Unparseable(lib, call) {
      LevelGrows(lib, rules, call, FactsOf(lib, call, small), FactsOf(lib, call, large));
    }
  }

  /** Without that condition it fails: one LOW production rule, and tagging a table as
      production turns its DROP from MEDIUM to LOW. */
  lemma {:induction false} LowProdRuleBreaksMonotonicity(lib: Library, call: GateCall)
    requires call == GateCall("db__execute", map["sql" := Text("DROP TABLE t")])
    requires lib.parse("DROP TABLE t") == Some(Parsed(Drop, {"t"}, None)) && lib.lower("t") == "t"
    ensures var rules := [RiskRule("R", LOW, None, map[], Some(SqlMatcher(None, None, false, true, false)), None)];
      Evaluate(lib, rules, {}, call).riskLevel == MEDIUM && Evaluate(lib, rules, {"t"}, call).riskLevel == LOW
  {
    var rules := [RiskRule("R", LOW, None, map[], Some(SqlMatcher(None, None, false, true, false)), None)];
    var sql := call.arguments["sql"].text;
    assert sql[0] == 'D';
    assert SqlText(call) == Some(sql);
    assert Lowered(lib, {}) == {};
    assert lib.lower("t") in Lowered(lib, {"t"});
    assert "t" in Lowered(lib, {"t"}) * Lowered(lib, {"t"});
    var facts := FactsOf(lib, call, {});
    assert facts.Some? && !facts.value.touchesProdTable;
    assert FactsOf(lib, call, {"t"}).value.touchesProdTable;
    assert rules[1..] == [];
    assert FirstMatch(lib, rules, call, facts) == None;
  }
}
