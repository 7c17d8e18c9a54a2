/** The SQL text that `gateway/undo.py` prints, and a reader for it.

    The reader accepts the canonical spelling of `INSERT OR REPLACE` with a plain or
    quoted table name, unquoted columns, `NULL`, signed integers, and character strings in
    which a quote is doubled (section 5.3 of ISO/IEC 9075-2). */
module Literals {
  import opened Records

  // ---- Printing (undo.py) -----------------------------------------------------

  function Digit(d: nat): char
    requires d < 10
  {
    ['0', '1', '2', '3', '4', '5', '6', '7', '8', '9'][d]
  }

  function PrintNat(n: nat): string {
    if n < 10 then [Digit(n)] else PrintNat(n / 10) + [Digit(n % 10)]
  }

  function PrintInt(i: int): string {
    if i < 0 then "-" + PrintNat(-i) else PrintNat(i)
  }

  /** `value.replace(q, q + q)` */
  function Escape(q: char, s: string): string {
    if s == "" then ""
    else (if s[0] == q then [q, q] else [s[0]]) + Escape(q, s[1..])
  }

  /** `_sql_literal` */
  function SqlLiteral(v: JsonValue): string {
    match v
    case JsonNull => "NULL"
    case JsonBool(b) => if b then "1" else "0"
    case JsonInt(i) => PrintInt(i)
    case JsonText(s) => "'" + Escape('\'', s) + "'"
  }

  /** How a statement's table reference is rendered: in double quotes when it was written so. */
  function Spelled(name: string, quoted: bool): string {
    if quoted then "\"" + Escape('"', name) + "\"" else name
  }

  /** `", ".join(parts)` */
  function CommaJoin(parts: seq<string>): string {
    if parts == [] then ""
    else if |parts| == 1 then parts[0]
    else parts[0] + ", " + CommaJoin(parts[1..])
  }

  function Columns(row: JsonRow): seq<string> {
    seq(|row|, i requires 0 <= i < |row| => row[i].column)
  }

  function Literals(row: JsonRow): seq<string> {
    seq(|row|, i requires 0 <= i < |row| => SqlLiteral(row[i].value))
  }

  /** `_insert_or_replace`: `table` is a rendered reference, the columns are never quoted. */
  function InsertOrReplace(table: string, row: JsonRow): string {
    "INSERT OR REPLACE INTO " + table + " (" + CommaJoin(Columns(row)) + ") VALUES (" + CommaJoin(Literals(row)) + ")"
  }

  // ---- Reading ----------------------------------------------------------------

  datatype SqlValue = Null | Int(i: int) | Text(s: string)

  /** What SQLite stores for a printed JSON value: booleans become integers. */
  function Stored(v: JsonValue): SqlValue {
    match v
    case JsonNull => Null
    case JsonBool(b) => Int(if b then 1 else 0)
    case JsonInt(i) => Int(i)
    case JsonText(s) => Text(s)
  }

  function StoredRow(row: JsonRow): seq<SqlValue> {
    seq(|row|, i requires 0 <= i < |row| => Stored(row[i].value))
  }

  predicate IsDigit(c: char) { '0' <= c <= '9' }

  predicate IsNameChar(c: char) {
    'a' <= c <= 'z' || 'A' <= c <= 'Z' || IsDigit(c) || c == '_'
  }

  /** The words SQL reserves. */
  type Keywords = string -> bool

  /** A name that needs no quoting. */
  predicate PlainName(kw: Keywords, s: string) {
    s != "" && !IsDigit(s[0]) && !kw(s) && forall i :: 0 <= i < |s| ==> IsNameChar(s[i])
  }

  predicate PlainNames(kw: Keywords, names: seq<string>) {
    names != [] && forall i :: 0 <= i < |names| ==> PlainName(kw, names[i])
  }

  /** A parse result with the unread rest of the text. */
  datatype Parse<+T> = Fail | Got(value: T, rest: string)

  function Expect(prefix: string, s: string): Parse<()> {
    if prefix <= s then Got((), s[|prefix|..]) else Fail
  }

  /** The length of the longest run of name characters. */
  function NameLength(s: string): (n: nat)
    ensures n <= |s|
    ensures forall i :: 0 <= i < n ==> IsNameChar(s[i])
    ensures n < |s| ==> !IsNameChar(s[n])
  {
    if s != "" && IsNameChar(s[0]) then 1 + NameLength(s[1..]) else 0
  }

  function ReadName(kw: Keywords, s: string): (p: Parse<string>)
    ensures p.Got? ==> PlainName(kw, p.value) && s == p.value + p.rest
  {
    var n := NameLength(s);
    if n == 0 || IsDigit(s[0]) || kw(s[..n]) then Fail else Got(s[..n], s[n..])
  }

  function DigitValue(c: char): nat
    requires IsDigit(c)
  {
    c as int - '0' as int
  }

  /** Reads digits after a prefix whose value is `acc`. */
  function ReadDigits(s: string, acc: nat): (p: (nat, string))
    ensures |p.1| <= |s|
    decreases |s|
  {
    if s != "" && IsDigit(s[0]) then ReadDigits(s[1..], 10 * acc + DigitValue(s[0])) else (acc, s)
  }

  function ReadNat(s: string): (p: Parse<nat>)
    ensures p.Got? ==> |p.rest| < |s|
  {
    if s != "" && IsDigit(s[0]) then
      var (n, rest) := ReadDigits(s[1..], DigitValue(s[0]));
      Got(n, rest)
    else Fail
  }

  function Prepend(c: char, p: Parse<string>): Parse<string> {
    match p
    case Fail => Fail
    case Got(t, rest) => Got([c] + t, rest)
  }

  /** Reads up to the closing quote; a doubled quote stands for one quote. */
  function ReadQuoted(q: char, s: string): (p: Parse<string>)
    ensures p.Got? ==> |p.rest| < |s|
  {
    if s == "" then Fail
    else if s[0] != q then Prepend(s[0], ReadQuoted(q, s[1..]))
    else if |s| > 1 && s[1] == q then Prepend(q, ReadQuoted(q, s[2..]))
    else Got("", s[1..])
  }

  /** A table reference: a quoted name, or a plain one. */
  function ReadTable(kw: Keywords, s: string): Parse<string> {
    if s != "" && s[0] == '"' then ReadQuoted('"', s[1..]) else ReadName(kw, s)
  }

  function ReadLiteral(s: string): (p: Parse<SqlValue>)
    ensures p.Got? ==> |p.rest| < |s|
  {
    if "NULL" <= s then Got(Null, s[4..])
    else if s != "" && s[0] == '\'' then
      match ReadQuoted('\'', s[1..])
      case Fail => Fail
      case Got(t, rest) => Got(Text(t), rest)
    else if s != "" && s[0] == '-' then
      match ReadNat(s[1..])
      case Fail => Fail
      case Got(n, rest) => Got(Int(0 - n), rest)
    else
      match ReadNat(s)
      case Fail => Fail
      case Got(n, rest) => Got(Int(n), rest)
  }

  function ReadNames(kw: Keywords, s: string): (p: Parse<seq<string>>)
    ensures p.Got? ==> PlainNames(kw, p.value)
    decreases |s|
  {
    match ReadName(kw, s)
    case Fail => Fail
    case Got(name, rest) =>
      if ", " <= rest then
        match ReadNames(kw, rest[2..])
        case Fail => Fail
        case Got(names, end) => Got([name] + names, end)
      else Got([name], rest)
  }

  function ReadLiterals(s: string): Parse<seq<SqlValue>>
    decreases |s|
  {
    match ReadLiteral(s)
    case Fail => Fail
    case Got(v, rest) =>
      if ", " <= rest then
        match ReadLiterals(rest[2..])
        case Fail => Fail
        case Got(vs, end) => Got([v] + vs, end)
      else Got([v], rest)
  }

  datatype Insert = Insert(table: string, columns: seq<string>, values: seq<SqlValue>)

  /** The fixed words of the statement, in order. */
  datatype Words = Words(into: string, open: string, values: string, close: string)

  const INSERT_WORDS := Words("INSERT OR REPLACE INTO ", " (", ") VALUES (", ")")

  function PrintWith(w: Words, table: string, row: JsonRow): string {
    w.into + (table + (w.open + (CommaJoin(Columns(row)) + (w.values + (CommaJoin(Literals(row)) + w.close)))))
  }

  /** Reads from the word VALUES on. */
  function ReadValues(w: Words, table: string, columns: seq<string>, s: string): (r: Option<Insert>)
    ensures r.Some? ==> r.value.table == table && r.value.columns == columns
  {
    match Expect(w.values, s)
    case Fail => None
    case Got(_, s1) =>
      match ReadLiterals(s1)
      case Fail => None
      case Got(values, end) => if end == w.close then Some(Insert(table, columns, values)) else None
  }

  /** Reads from the column list on. */
  function ReadColumns(kw: Keywords, w: Words, table: string, s: string): (r: Option<Insert>)
    ensures r.Some? ==> r.value.table == table && PlainNames(kw, r.value.columns)
  {
    match Expect(w.open, s)
    case Fail => None
    case Got(_, s1) =>
      match ReadNames(kw, s1)
      case Fail => None
      case Got(columns, s2) => ReadValues(w, table, columns, s2)
  }

  function ReadWith(kw: Keywords, w: Words, s: string): (r: Option<Insert>)
    ensures r.Some? ==> PlainNames(kw, r.value.columns)
  {
    match Expect(w.into, s)
    case Fail => None
    case Got(_, s1) =>
      match ReadTable(kw, s1)
      case Fail => None
      case Got(table, s2) => ReadColumns(kw, w, table, s2)
  }

  /** Reads a whole `INSERT OR REPLACE` statement; nothing may follow it. */
  function ReadInsert(kw: Keywords, s: string): Option<Insert> {
    ReadWith(kw, INSERT_WORDS, s)
  }

  // ---- Round trips ------------------------------------------------------------

  /** A quoted text reads back whatever quotes it contains. */
  lemma {:induction false} QuotedRoundTrip(q: char, s: string, rest: string)
    requires rest == "" || rest[0] != q
    ensures ReadQuoted(q, Escape(q, s) + ([q] + rest)) == Got(s, rest)
  {
    var end := [q] + rest;
    var text := Escape(q, s) + end;
    if s == "" {
      assert text == end && end[1..] == rest;
    } else {
      var tail := Escape(q, s[1..]) + end;
      QuotedRoundTrip(q, s[1..], rest);
      if s[0] == q {
        assert text == [q, q] + tail;
        assert text[2..] == tail;
      } else {
        assert text == [s[0]] + tail;
        assert text[1..] == tail;
      }
      assert [s[0]] + s[1..] == s;
    }
  }

  /** Reading printed digits leaves the reader where the number's value is the accumulator. */
  lemma {:induction false} NatRoundTrip(n: nat, rest: string)
    ensures PrintNat(n) != "" && IsDigit(PrintNat(n)[0])
    ensures ReadDigits(PrintNat(n) + rest, 0) == ReadDigits(rest, n)
    decreases n
  {
    if n < 10 {
      assert ([Digit(n)] + rest)[1..] == rest;
      assert DigitValue(Digit(n)) == n;
    } else {
      var tail := [Digit(n % 10)] + rest;
      NatRoundTrip(n / 10, tail);
      assert PrintNat(n) + rest == PrintNat(n / 10) + tail;
      assert tail[1..] == rest;
      assert DigitValue(Digit(n % 10)) == n % 10;
    }
  }

  /** What may follow a literal in a printed list. */
  predicate Stops(rest: string) {
    rest == "" || rest[0] == ',' || rest[0] == ')'
  }

  lemma {:induction false} ReadNatRoundTrip(n: nat, rest: string)
    requires Stops(rest)
    ensures ReadNat(PrintNat(n) + rest) == Got(n, rest)
    ensures ReadLiteral(PrintNat(n) + rest) == Got(Int(n), rest)
  {
    NatRoundTrip(n, rest);
    assert (PrintNat(n) + rest)[0] == PrintNat(n)[0];
  }

  lemma {:induction false} Regroup(a: string, b: string, c: string)
    ensures a + b + c == a + (b + c)
  {
  }

  lemma {:induction false} NegativeRoundTrip(n: nat, rest: string)
    requires Stops(rest)
    ensures ReadLiteral("-" + (PrintNat(n) + rest)) == Got(Int(0 - n), rest)
  {
    ReadNatRoundTrip(n, rest);
    var text := "-" + (PrintNat(n) + rest);
    assert text[0] == '-' && text[1..] == PrintNat(n) + rest;
  }

  lemma {:induction false} IntRoundTrip(i: int, rest: string)
    requires Stops(rest)
    ensures ReadLiteral(PrintInt(i) + rest) == Got(Int(i), rest)
  {
    if i < 0 {
      NegativeRoundTrip(-i, rest);
      Regroup("-", PrintNat(-i), rest);
    } else {
      ReadNatRoundTrip(i, rest);
    }
  }

  lemma {:induction false} QuotedText(q: char, s: string, rest: string)
    ensures [q] + Escape(q, s) + [q] + rest == [q] + (Escape(q, s) + ([q] + rest))
  {
  }

  lemma {:induction false} TextRoundTrip(s: string, rest: string)
    requires Stops(rest)
    ensures ReadLiteral("'" + Escape('\'', s) + "'" + rest) == Got(Text(s), rest)
  {
    var tail := Escape('\'', s) + (['\''] + rest);
    QuotedRoundTrip('\'', s, rest);
    QuotedText('\'', s, rest);
    assert "'" == ['\''];
    assert "'" + Escape('\'', s) + "'" + rest == "'" + tail;
    assert ("'" + tail)[0] == '\'' && ("'" + tail)[1..] == tail;
  }

  lemma {:induction false} BoolRoundTrip(b: bool, rest: string)
    requires Stops(rest)
    ensures ReadLiteral((if b then "1" else "0") + rest) == Got(Stored(JsonBool(b)), rest)
  {
    var i := if b then 1 else 0;
    assert PrintInt(i) == [Digit(i)] == (if b then "1" else "0");
    IntRoundTrip(i, rest);
  }

  lemma {:induction false} LiteralRoundTrip(v: JsonValue, rest: string)
    requires Stops(rest)
    ensures ReadLiteral(SqlLiteral(v) + rest) == Got(Stored(v), rest)
  {
    match v
    case JsonNull => assert ("NULL" + rest)[4..] == rest;
    case JsonBool(b) => BoolRoundTrip(b, rest);
    case JsonInt(i) => IntRoundTrip(i, rest);
    case JsonText(s) => TextRoundTrip(s, rest);
  }

  lemma {:induction false} CommaJoinStep(parts: seq<string>, rest: string)
    requires |parts| > 1
    ensures CommaJoin(parts) + rest == parts[0] + (", " + (CommaJoin(parts[1..]) + rest))
  {
  }

  lemma {:induction false} LastLiteral(v: JsonValue, rest: string)
    requires rest != "" && rest[0] == ')'
    ensures ReadLiterals(SqlLiteral(v) + rest) == Got([Stored(v)], rest)
  {
    LiteralRoundTrip(v, rest);
  }

  lemma {:induction false} FirstLiteral(v: JsonValue, tail: string, vs: seq<SqlValue>, rest: string)
    requires ReadLiterals(tail) == Got(vs, rest)
    ensures ReadLiterals(SqlLiteral(v) + (", " + tail)) == Got([Stored(v)] + vs, rest)
  {
    LiteralRoundTrip(v, ", " + tail);
    assert (", " + tail)[2..] == tail;
  }

  lemma {:induction false} LiteralsCons(row: JsonRow)
    requires row != []
    ensures Literals(row)[0] == SqlLiteral(row[0].value) && Literals(row)[1..] == Literals(row[1..])
    ensures StoredRow(row) == [Stored(row[0].value)] + StoredRow(row[1..])
  {
  }

  lemma {:induction false} LiteralsRoundTrip(row: JsonRow, rest: string)
    requires row != [] && rest != "" && rest[0] == ')'
    ensures ReadLiterals(CommaJoin(Literals(row)) + rest) == Got(StoredRow(row), rest)
  {
    LiteralsCons(row);
    if |row| == 1 {
      LastLiteral(row[0].value, rest);
      assert StoredRow(row) == [Stored(row[0].value)];
    } else {
      LiteralsRoundTrip(row[1..], rest);
      CommaJoinStep(Literals(row), rest);
      FirstLiteral(row[0].value, CommaJoin(Literals(row[1..])) + rest, StoredRow(row[1..]), rest);
    }
  }

  lemma {:induction false} NameRoundTrip(kw: Keywords, name: string, rest: string)
    requires PlainName(kw, name) && (rest == "" || !IsNameChar(rest[0]))
    ensures ReadName(kw, name + rest) == Got(name, rest)
  {
    var text := name + rest;
    assert rest != "" ==> text[|name|] == rest[0];
    assert text[..|name|] == name && text[|name|..] == rest;
    assert forall i :: 0 <= i < |name| ==> text[i] == name[i];
  }

  lemma {:induction false} ReadNamesStep(kw: Keywords, text: string, name: string, tail: string, names: seq<string>,
      rest: string)
    requires ReadName(kw, text) == Got(name, ", " + tail) && ReadNames(kw, tail) == Got(names, rest)
    ensures ReadNames(kw, text) == Got([name] + names, rest)
  {
    assert (", " + tail)[2..] == tail;
  }

  lemma {:induction false} PlainTail(kw: Keywords, names: seq<string>)
    requires |names| > 1
    ensures PlainNames(kw, names) <==> PlainName(kw, names[0]) && PlainNames(kw, names[1..])
  {
    if PlainNames(kw, names) {
      forall i | 0 <= i < |names[1..]| ensures PlainName(kw, names[1..][i]) {
        assert PlainName(kw, names[i + 1]);
      }
    }
    if PlainName(kw, names[0]) && PlainNames(kw, names[1..]) {
      forall i | 0 <= i < |names| ensures PlainName(kw, names[i]) {
        if i > 0 { assert PlainName(kw, names[1..][i - 1]); }
      }
    }
  }

  lemma {:induction false} LastName(kw: Keywords, names: seq<string>, rest: string)
    requires |names| == 1 && PlainName(kw, names[0]) && rest != "" && rest[0] == ')'
    ensures ReadNames(kw, CommaJoin(names) + rest) == Got(names, rest)
  {
    NameRoundTrip(kw, names[0], rest);
    assert [names[0]] == names;
  }

  lemma {:induction false} FirstName(kw: Keywords, names: seq<string>, rest: string)
    requires |names| > 1 && PlainName(kw, names[0])
    requires ReadNames(kw, CommaJoin(names[1..]) + rest) == Got(names[1..], rest)
    ensures ReadNames(kw, CommaJoin(names) + rest) == Got(names, rest)
  {
    var tail := CommaJoin(names[1..]) + rest;
    CommaJoinStep(names, rest);
    NameRoundTrip(kw, names[0], ", " + tail);
    ReadNamesStep(kw, CommaJoin(names) + rest, names[0], tail, names[1..], rest);
    assert [names[0]] + names[1..] == names;
  }

  lemma {:induction false} NamesRoundTrip(kw: Keywords, names: seq<string>, rest: string)
    requires PlainNames(kw, names) && rest != "" && rest[0] == ')'
    ensures ReadNames(kw, CommaJoin(names) + rest) == Got(names, rest)
  {
    if |names| == 1 {
      LastName(kw, names, rest);
    } else {
      PlainTail(kw, names);
      NamesRoundTrip(kw, names[1..], rest);
      FirstName(kw, names, rest);
    }
  }

  lemma {:induction false} ExpectRoundTrip(prefix: string, rest: string)
    ensures Expect(prefix, prefix + rest) == Got((), rest)
  {
  }

  /** The fixed words delimit what lies between them. */
  predicate Delimits(w: Words) {
    && w.open != "" && w.values != "" && w.close != ""
    && w.open[0] == ' ' && w.values[0] == ')' && w.close[0] == ')'
  }

  lemma {:induction false} ValuesRoundTrip(w: Words, table: string, row: JsonRow)
    requires Delimits(w) && row != []
    ensures ReadValues(w, table, Columns(row), w.values + (CommaJoin(Literals(row)) + w.close))
         == Some(Insert(table, Columns(row), StoredRow(row)))
  {
    ExpectRoundTrip(w.values, CommaJoin(Literals(row)) + w.close);
    LiteralsRoundTrip(row, w.close);
  }

  lemma {:induction false} ColumnsRoundTrip(kw: Keywords, w: Words, table: string, columns: seq<string>, rest: string)
    requires PlainNames(kw, columns) && rest != "" && rest[0] == ')'
    ensures ReadColumns(kw, w, table, w.open + (CommaJoin(columns) + rest)) == ReadValues(w, table, columns, rest)
  {
    ExpectRoundTrip(w.open, CommaJoin(columns) + rest);
    NamesRoundTrip(kw, columns, rest);
  }

  /** A table reference that SQL accepts. */
  predicate ValidReference(kw: Keywords, name: string, quoted: bool) {
    quoted || PlainName(kw, name)
  }

  lemma {:induction false} ReferenceRoundTrip(kw: Keywords, name: string, quoted: bool, rest: string)
    requires ValidReference(kw, name, quoted) && rest != "" && rest[0] == ' '
    ensures ReadTable(kw, Spelled(name, quoted) + rest) == Got(name, rest)
  {
    if quoted {
      var tail := Escape('"', name) + (['"'] + rest);
      QuotedRoundTrip('"', name, rest);
      QuotedText('"', name, rest);
      assert ("\"" + tail)[1..] == tail;
    } else {
      NameRoundTrip(kw, name, rest);
      assert (name + rest)[0] == name[0];
    }
  }

  lemma {:induction false} TableRoundTrip(kw: Keywords, w: Words, name: string, quoted: bool, rest: string)
    requires ValidReference(kw, name, quoted) && rest != "" && rest[0] == ' '
    ensures ReadWith(kw, w, w.into + (Spelled(name, quoted) + rest)) == ReadColumns(kw, w, name, rest)
  {
    ExpectRoundTrip(w.into, Spelled(name, quoted) + rest);
    ReferenceRoundTrip(kw, name, quoted, rest);
  }

  lemma {:induction false} WordsRoundTrip(kw: Keywords, w: Words, name: string, quoted: bool, row: JsonRow)
    requires Delimits(w) && ValidReference(kw, name, quoted) && PlainNames(kw, Columns(row))
    ensures ReadWith(kw, w, PrintWith(w, Spelled(name, quoted), row)) ==
      Some(Insert(name, Columns(row), StoredRow(row)))
  {
    var values := w.values + (CommaJoin(Literals(row)) + w.close);
    TableRoundTrip(kw, w, name, quoted, w.open + (CommaJoin(Columns(row)) + values));
    ColumnsRoundTrip(kw, w, name, Columns(row), values);
    ValuesRoundTrip(w, name, row);
  }

  lemma {:induction false} Reassociate(a: string, b: string, c: string, d: string, e: string, f: string, g: string)
    ensures a + b + c + d + e + f + g == a + (b + (c + (d + (e + (f + g)))))
  {
  }

  lemma {:induction false} PrintedWithWords(table: string, row: JsonRow)
    ensures InsertOrReplace(table, row) == PrintWith(INSERT_WORDS, table, row)
  {
    Reassociate("INSERT OR REPLACE INTO ", table, " (", CommaJoin(Columns(row)), ") VALUES (",
      CommaJoin(Literals(row)), ")");
  }

  /** A printed `INSERT OR REPLACE` reads back as the captured row exactly when its columns
      need no quoting (the printer never quotes them); the values may be anything. */
  lemma {:induction false} InsertRoundTrip(kw: Keywords, name: string, quoted: bool, row: JsonRow)
    requires ValidReference(kw, name, quoted)
    ensures
      ReadInsert(kw, InsertOrReplace(Spelled(name, quoted), row)) == Some(Insert(name, Columns(row), StoredRow(row)))
      <==> PlainNames(kw, Columns(row))
  {
    PrintedWithWords(Spelled(name, quoted), row);
    if PlainNames(kw, Columns(row)) {
      WordsRoundTrip(kw, INSERT_WORDS, name, quoted, row);
    }
  }

  /** Every kind of value, as it is printed. */
  lemma {:induction false} PrintedValues()
    ensures SqlLiteral(JsonNull) == "NULL" && SqlLiteral(JsonBool(true)) == "1" && SqlLiteral(JsonBool(false)) == "0"
    ensures SqlLiteral(JsonInt(-120)) == "-120" && SqlLiteral(JsonInt(7)) == "7"
    ensures SqlLiteral(JsonText("it's")) == "'it''s'"
  {
    assert PrintNat(12) == "12" && PrintNat(120) == "120";
    assert Escape('\'', "") == "" && Escape('\'', "s") == "s" && Escape('\'', "'s") == "''s";
    assert "it's"[1..] == "t's" && "t's"[1..] == "'s" && "'s"[1..] == "s";
    assert Escape('\'', "t's") == "t''s" && Escape('\'', "it's") == "it''s";
  }

  lemma {:induction false} JoinEnds(a: string, b: string, c: string, d: string)
    ensures a + b + c + d == a + (b + c + d)
  {
  }

  /** A list, and a whole statement, as they are printed. */
  lemma {:induction false} PrintedStatement(column: string)
    ensures CommaJoin(["a", "b", "c"]) == "a, b, c"
    ensures InsertOrReplace("t", [Cell(column, JsonNull)])
         == "INSERT OR REPLACE INTO t (" + column + ") VALUES (NULL)"
  {
    assert ["a", "b", "c"][1..] == ["b", "c"] && ["b", "c"][1..] == ["c"];
    var row := [Cell(column, JsonNull)];
    assert Columns(row) == [column] && Literals(row) == ["NULL"];
    assert CommaJoin(Columns(row)) == column && CommaJoin(Literals(row)) == "NULL";
    assert "INSERT OR REPLACE INTO " + "t" + " (" == "INSERT OR REPLACE INTO t (";
    assert ") VALUES (" + "NULL" + ")" == ") VALUES (NULL)";
    JoinEnds("INSERT OR REPLACE INTO t (" + column, ") VALUES (", "NULL", ")");
  }

  // ---- Columns that need quoting ----------------------------------------------

  /** Letters, digits, underscores and inner spaces; such a name may still need quoting. */
  predicate Wordy(s: string) {
    && s != "" && s[0] != ' ' && s[|s| - 1] != ' '
    && forall i :: 0 <= i < |s| ==> IsNameChar(s[i]) || s[i] == ' '
  }

  predicate AllWordy(names: seq<string>) {
    forall i :: 0 <= i < |names| ==> Wordy(names[i])
  }

  /** Of a name that is not plain the reader takes nothing, or a proper part. */
  lemma {:induction false} UnplainName(kw: Keywords, name: string, rest: string)
    requires !PlainName(kw, name) && rest != "" && !IsNameChar(rest[0])
    ensures var p := ReadName(kw, name + rest);
      p.Got? ==> 0 < |p.value| < |name| && p.rest == name[|p.value|..] + rest
  {
    var text := name + rest;
    var n := NameLength(text);
    assert text[|name|] == rest[0];
    assert forall i :: 0 <= i < |name| ==> text[i] == name[i];
    if n == |name| {
      assert text[..n] == name;
    }
  }

  lemma {:induction false} CommaJoinHead(names: seq<string>, rest: string) returns (tail: string)
    requires names != [] && rest != "" && rest[0] == ')'
    ensures CommaJoin(names) + rest == names[0] + tail
    ensures tail == if |names| == 1 then rest else ", " + (CommaJoin(names[1..]) + rest)
    ensures tail != "" && !IsNameChar(tail[0])
  {
    if |names| == 1 {
      tail := rest;
    } else {
      tail := ", " + (CommaJoin(names[1..]) + rest);
      CommaJoinStep(names, rest);
    }
  }

  lemma {:induction false} PlainHead(kw: Keywords, name: string, tail: string)
    requires PlainName(kw, name)
    ensures var p, q := ReadNames(kw, tail), ReadNames(kw, name + (", " + tail));
      q.Got? ==> p.Got? && q.rest == p.rest
  {
    NameRoundTrip(kw, name, ", " + tail);
    assert (", " + tail)[2..] == tail;
  }

  lemma {:induction false} UnplainHead(kw: Keywords, name: string, tail: string)
    requires !PlainName(kw, name) && Wordy(name) && tail != "" && !IsNameChar(tail[0])
    ensures var p := ReadNames(kw, name + tail);
      p.Got? ==> p.rest != "" && p.rest[0] != ')'
  {
    UnplainName(kw, name, tail);
    var p := ReadName(kw, name + tail);
    if p.Got? {
      assert p.rest[0] == name[|p.value|];
    }
  }

  /** A list with such a name is not read up to its closing parenthesis. */
  lemma {:induction false} UnplainNames(kw: Keywords, names: seq<string>, rest: string)
    requires !PlainNames(kw, names) && AllWordy(names) && rest != "" && rest[0] == ')'
    ensures var p := ReadNames(kw, CommaJoin(names) + rest);
      p.Got? ==> p.rest != "" && p.rest[0] != ')'
    decreases |names|
  {
    if names == [] {
      assert CommaJoin(names) + rest == rest;
    } else {
      var tail := CommaJoinHead(names, rest);
      if !PlainName(kw, names[0]) {
        UnplainHead(kw, names[0], tail);
      } else {
        assert |names| > 1;
        PlainTail(kw, names);
        UnplainNames(kw, names[1..], rest);
        PlainHead(kw, names[0], CommaJoin(names[1..]) + rest);
      }
    }
  }

  lemma {:induction false} UnplainColumns(kw: Keywords, w: Words, table: string, columns: seq<string>, rest: string)
    requires Delimits(w) && !PlainNames(kw, columns) && AllWordy(columns) && rest != "" && rest[0] == ')'
    ensures ReadColumns(kw, w, table, w.open + (CommaJoin(columns) + rest)).None?
  {
    ExpectRoundTrip(w.open, CommaJoin(columns) + rest);
    UnplainNames(kw, columns, rest);
  }

  lemma {:induction false} UnplainPrinted(kw: Keywords, w: Words, name: string, quoted: bool, row: JsonRow)
    requires Delimits(w) && ValidReference(kw, name, quoted)
    requires AllWordy(Columns(row)) && !PlainNames(kw, Columns(row))
    ensures ReadWith(kw, w, PrintWith(w, Spelled(name, quoted), row)).None?
  {
    var values := w.values + (CommaJoin(Literals(row)) + w.close);
    TableRoundTrip(kw, w, name, quoted, w.open + (CommaJoin(Columns(row)) + values));
    UnplainColumns(kw, w, name, Columns(row), values);
  }

  /** With a column that needs quoting, the printed text is no statement at all. */
  lemma {:induction false} UnplainIsUnreadable(kw: Keywords, name: string, quoted: bool, row: JsonRow)
    requires ValidReference(kw, name, quoted) && AllWordy(Columns(row))
    ensures ReadInsert(kw, InsertOrReplace(Spelled(name, quoted), row)).Some? <==> PlainNames(kw, Columns(row))
  {
    PrintedWithWords(Spelled(name, quoted), row);
    if PlainNames(kw, Columns(row)) {
      InsertRoundTrip(kw, name, quoted, row);
    } else {
      UnplainPrinted(kw, INSERT_WORDS, name, quoted, row);
    }
  }
}
