/**
 The upload file's schema check and row parser, against a writer: a file of valid rows
 written with quoted fields parses back to those rows with no errors.
 */
module CsvFile {
  import opened Wrappers
  import opened CsvLine

  const MAX_ROWS: nat := 10_000
  const LF: char := '\n'
  const CR: char := '\r'
  const NUL: char := '\0'
  const BOM: char := '\U{FEFF}'

  // ----- strings -----

  /** The characters JavaScript's `trim` removes. */
  predicate IsSpace(c: char) {
    c == ' ' || c == '\t' || c == LF || c == CR || c == '\U{000B}' || c == '\U{000C}' || c == '\U{00A0}' || c == BOM
    || c == '\U{1680}' || '\U{2000}' <= c <= '\U{200A}' || c == '\U{2028}' || c == '\U{2029}' || c == '\U{202F}'
    || c == '\U{205F}' || c == '\U{3000}'
  }

  function TrimStart(s: string): string {
    if s != "" && IsSpace(s[0]) then TrimStart(s[1..]) else s
  }

  function TrimEnd(s: string): string {
    if s != "" && IsSpace(s[|s| - 1]) then TrimEnd(s[..|s| - 1]) else s
  }

  function Trim(s: string): string {
    TrimEnd(TrimStart(s))
  }

  predicate Trimmed(s: string) {
    s != "" && !IsSpace(s[0]) && !IsSpace(s[|s| - 1])
  }

  /** Case folding of the ASCII letters; no other character folds into a column name. */
  function LowerChar(c: char): char {
    if 'A' <= c <= 'Z' then (c as int + 32) as char else c
  }

  function UpperChar(c: char): char {
    if 'a' <= c <= 'z' then (c as int - 32) as char else c
  }

  function Lower(s: string): string {
    seq(|s|, i requires 0 <= i < |s| => LowerChar(s[i]))
  }

  function Upper(s: string): string {
    seq(|s|, i requires 0 <= i < |s| => UpperChar(s[i]))
  }

  function Split(s: string, c: char): (parts: seq<string>)
    ensures parts != []
  {
    if s == "" then [""]
    else
      var rest := Split(s[1..], c);
      if s[0] == c then [""] + rest else [[s[0]] + rest[0]] + rest[1..]
  }

  function Join(parts: seq<string>, c: char): string
    requires parts != []
  {
    if |parts| == 1 then parts[0] else parts[0] + [c] + Join(parts[1..], c)
  }

  /** CRLF and lone CR both end a line. */
  function Normalize(s: string): string {
    if s == "" then ""
    else if s[0] == CR && |s| > 1 && s[1] == LF then [LF] + Normalize(s[2..])
    else if s[0] == CR then [LF] + Normalize(s[1..])
    else [s[0]] + Normalize(s[1..])
  }

  function WithoutBom(s: string): string {
    if s != "" && s[0] == BOM then s[1..] else s
  }

  function Lines(text: string): seq<string> {
    Split(Trim(Normalize(WithoutBom(text))), LF)
  }

  predicate AllBlank(lines: seq<string>) {
    forall i :: 0 <= i < |lines| ==> Trim(lines[i]) == ""
  }

  // ----- the schema -----

  datatype SchemaError = NotCsv | EmptyFile | WrongDelimiter | MissingColumns | NoDataRows

  function Headers(line: string): seq<string> {
    var cells := Split(line, COMMA);
    seq(|cells|, i requires 0 <= i < |cells| => Lower(Trim(cells[i])))
  }

  function ValidateSchema(text: string): Option<SchemaError> {
    if NUL in WithoutBom(text) then Some(NotCsv)
    else
      var lines := Lines(text);
      if AllBlank(lines) then Some(EmptyFile)
      else if |Split(lines[0], COMMA)| == 1 && (|Split(lines[0], ';')| >= 3 || |Split(lines[0], '\t')| >= 3) then Some(WrongDelimiter)
      else
        var headers := Headers(lines[0]);
        if "prompt" !in headers || "responsea" !in headers || "responseb" !in headers then Some(MissingColumns)
        else if AllBlank(lines[1..]) then Some(NoDataRows)
        else None
  }

  // ----- rows -----

  datatype Answer = A | B

  datatype TaskRow = TaskRow(prompt: string, responseA: string, responseB: string, responseTarget: Option<nat>,
                             category: Option<string>, isGold: bool, goldAnswer: Option<Answer>, difficulty: Option<nat>)

  datatype RowError = EmptyRow | MissingPrompt | MissingResponseA | MissingResponseB | GoldWithoutAnswer | BadDifficulty

  datatype FileError = RowLimitReached | AtRow(line: nat, error: RowError)

  datatype Parsed = Parsed(rows: seq<TaskRow>, errors: seq<FileError>, schemaError: Option<SchemaError>)

  datatype RowResult = Good(row: TaskRow) | Bad(error: RowError)

  /** Where each column stands in the header; `None` is an absent optional one. */
  datatype Columns = Columns(prompt: Option<nat>, responseA: Option<nat>, responseB: Option<nat>, responseTarget: Option<nat>,
                             category: Option<nat>, isGold: Option<nat>, goldAnswer: Option<nat>, difficulty: Option<nat>)

  function IndexFrom(headers: seq<string>, name: string, from: nat): Option<nat>
    requires from <= |headers|
    decreases |headers| - from
  {
    if from == |headers| then None else if headers[from] == name then Some(from) else IndexFrom(headers, name, from + 1)
  }

  function IndexOf(headers: seq<string>, name: string): Option<nat> {
    IndexFrom(headers, name, 0)
  }

  function ColumnsOf(h: seq<string>): Columns {
    Columns(IndexOf(h, "prompt"), IndexOf(h, "responsea"), IndexOf(h, "responseb"), IndexOf(h, "responsetarget"),
            IndexOf(h, "category"), IndexOf(h, "isgold"), IndexOf(h, "goldanswer"), IndexOf(h, "difficulty"))
  }

  /** A cell, trimmed; empty when its column or the value is absent. */
  function Cell(values: seq<string>, column: Option<nat>): string {
    if column == None || column.value >= |values| then "" else Trim(values[column.value])
  }

  predicate IsDigit(c: char) {
    '0' <= c <= '9'
  }

  function DigitPrefix(s: string): string {
    if s != "" && IsDigit(s[0]) then [s[0]] + DigitPrefix(s[1..]) else ""
  }

  function DigitOf(c: char): nat
    requires IsDigit(c)
  {
    c as int - 48
  }

  function ValueOf(digits: string): nat
    requires forall i :: 0 <= i < |digits| ==> IsDigit(digits[i])
  {
    if digits == "" then 0 else 10 * ValueOf(digits[..|digits| - 1]) + DigitOf(digits[|digits| - 1])
  }

  lemma {:induction false} PrefixIsDigits(s: string)
    ensures forall i :: 0 <= i < |DigitPrefix(s)| ==> IsDigit(DigitPrefix(s)[i])
  {
    if s != "" && IsDigit(s[0]) {
      PrefixIsDigits(s[1..]);
    }
  }

  /** `parseInt(s, 10)` kept when it is a positive number: an optional sign and the digits that follow. */
  function ParseTarget(s: string): Option<nat> {
    var unsigned := if s != "" && (s[0] == '+' || s[0] == '-') then s[1..] else s;
    var digits := DigitPrefix(unsigned);
    PrefixIsDigits(unsigned);
    if digits == "" || ValueOf(digits) == 0 || s[0] == '-' then None else Some(ValueOf(digits))
  }

  /** A whole number from 1 to 9, in digits alone. */
  function ParseDifficulty(s: string): Option<nat> {
    if forall i :: 0 <= i < |s| ==> IsDigit(s[i]) then
      if 1 <= ValueOf(s) <= 9 then Some(ValueOf(s)) else None
    else None
  }

  predicate SaysGold(s: string) {
    Lower(s) == "true" || Lower(s) == "1" || Lower(s) == "yes"
  }

  function ParseAnswer(s: string): Option<Answer> {
    if Upper(s) == "A" then Some(A) else if Upper(s) == "B" then Some(B) else None
  }

  function ParseRow(c: Columns, values: seq<string>): RowResult {
    var prompt, responseA, responseB := Cell(values, c.prompt), Cell(values, c.responseA), Cell(values, c.responseB);
    if prompt == "" && responseA == "" && responseB == "" then Bad(EmptyRow)
    else if prompt == "" then Bad(MissingPrompt)
    else if responseA == "" then Bad(MissingResponseA)
    else if responseB == "" then Bad(MissingResponseB)
    else
      var category := Cell(values, c.category);
      var isGold := SaysGold(Cell(values, c.isGold));
      var goldAnswer := if isGold then ParseAnswer(Cell(values, c.goldAnswer)) else None;
      var difficulty := Cell(values, c.difficulty);
      if isGold && goldAnswer == None then Bad(GoldWithoutAnswer)
      else if difficulty != "" && ParseDifficulty(difficulty) == None then Bad(BadDifficulty)
      else Good(TaskRow(prompt, responseA, responseB, ParseTarget(Cell(values, c.responseTarget)),
                        if category == "" then None else Some(category), isGold, goldAnswer,
                        if difficulty == "" then None else ParseDifficulty(difficulty)))
  }

  /** Rows and errors of `lines[i..]`, given what was read before. Blank lines are skipped; the limit ends the file. */
  function ParseFrom(c: Columns, lines: seq<string>, i: nat, rows: seq<TaskRow>, errors: seq<FileError>): (seq<TaskRow>, seq<FileError>)
    requires i <= |lines|
    decreases |lines| - i
  {
    if i == |lines| then (rows, errors)
    else if Trim(lines[i]) == "" then ParseFrom(c, lines, i + 1, rows, errors)
    else if |rows| >= MAX_ROWS then (rows, errors + [RowLimitReached])
    else
      match ParseRow(c, ParseLine(lines[i]))
      case Bad(error) => ParseFrom(c, lines, i + 1, rows, errors + [AtRow(i + 1, error)])
      case Good(row) => ParseFrom(c, lines, i + 1, rows + [row], errors)
  }

  function ParseFile(text: string): Parsed {
    var schemaError := ValidateSchema(text);
    if schemaError.Some? then Parsed([], [], schemaError)
    else
      var lines := Lines(text);
      var read := ParseFrom(ColumnsOf(Headers(lines[0])), lines, 1, [], []);
      Parsed(read.0, read.1, None)
  }

  /** `parseCSV`: the loop over the file's lines. */
  method ParseCSV(text: string) returns (parsed: Parsed)
    ensures parsed == ParseFile(text)
  {
    var schemaError := ValidateSchema(text);
    if schemaError.Some? { return Parsed([], [], schemaError); }
    var lines := Lines(text);
    var columns := ColumnsOf(Headers(lines[0]));
    var rows: seq<TaskRow>, errors: seq<FileError> := [], [];
    var i := 1;
    while i < |lines|
      invariant 1 <= i <= |lines|
      invariant ParseFrom(columns, lines, i, rows, errors) == ParseFrom(columns, lines, 1, [], [])
    {
      if Trim(lines[i]) != "" {
        if |rows| >= MAX_ROWS {
          errors := errors + [RowLimitReached];
          return Parsed(rows, errors, None);
        }
        var values := ParseCSVLine(lines[i]);
        match ParseRow(columns, values) {
          case Bad(error) => errors := errors + [AtRow(i + 1, error)];
          case Good(row) => rows := rows + [row];
        }
      }
      i := i + 1;
    }
    parsed := Parsed(rows, errors, None);
  }

  // ----- what is refused, and what each line becomes -----

  predicate Blank(line: string) {
    Trim(line) == ""
  }

  /** A header cell names this column, whatever its case and the space around it. */
  ghost predicate HasColumn(header: string, name: string) {
    exists i :: 0 <= i < |Split(header, COMMA)| && Lower(Trim(Split(header, COMMA)[i])) == name
  }

  lemma HeaderHas(header: string, name: string)
    ensures name in Headers(header) <==> HasColumn(header, name)
  {
    if HasColumn(header, name) {
      var i :| 0 <= i < |Split(header, COMMA)| && Lower(Trim(Split(header, COMMA)[i])) == name;
      assert Headers(header)[i] == name;
    }
    if name in Headers(header) {
      var i :| 0 <= i < |Headers(header)| && Headers(header)[i] == name;
      assert Lower(Trim(Split(header, COMMA)[i])) == name;
    }
  }

  ghost predicate HasRequiredColumns(header: string) {
    HasColumn(header, "prompt") && HasColumn(header, "responsea") && HasColumn(header, "responseb")
  }

  /** More than one comma-separated cell, or too few of any other kind to be another delimiter's. */
  predicate Delimited(header: string) {
    |Split(header, COMMA)| > 1 || (|Split(header, ';')| < 3 && |Split(header, '\t')| < 3)
  }

  /** Each way a file is refused, in the source's order; it is read when it is refused in none. */
  lemma SchemaExactly(text: string)
    ensures var lines := Lines(text);
            var binary := NUL in (if text != "" && text[0] == BOM then text[1..] else text);
            var empty := forall i :: 0 <= i < |lines| ==> Blank(lines[i]);
            ValidateSchema(text) ==
              if binary then Some(NotCsv)
              else if empty then Some(EmptyFile)
              else if !Delimited(lines[0]) then Some(WrongDelimiter)
              else if !HasRequiredColumns(lines[0]) then Some(MissingColumns)
              else if forall i :: 1 <= i < |lines| ==> Blank(lines[i]) then Some(NoDataRows)
              else None
  {
    var lines := Lines(text);
    HeaderHas(lines[0], "prompt");
    HeaderHas(lines[0], "responsea");
    HeaderHas(lines[0], "responseb");
    BlankUnder(lines);
    hide HasColumn, Headers, Trim, Split, Lines;
  }

  lemma BlankUnder(lines: seq<string>)
    requires lines != []
    ensures AllBlank(lines[1..]) <==> forall i :: 1 <= i < |lines| ==> Blank(lines[i])
  {
    hide Trim;
    if AllBlank(lines[1..]) {
      forall i | 1 <= i < |lines| ensures Blank(lines[i]) {
        assert lines[1..][i - 1] == lines[i];
      }
    }
  }

  /** Each way a row is refused, in terms of its trimmed cells, and what a row that is not refused says. */
  lemma RowExactly(c: Columns, values: seq<string>)
    ensures var prompt, a, b := Cell(values, c.prompt), Cell(values, c.responseA), Cell(values, c.responseB);
            var gold, answer := SaysGold(Cell(values, c.isGold)), Upper(Cell(values, c.goldAnswer));
            var difficulty := Cell(values, c.difficulty);
            var whole := prompt != "" && a != "" && b != "";
            var answered := !gold || answer == "A" || answer == "B";
            var rated := difficulty == "" || ParseDifficulty(difficulty).Some?;
            var r := ParseRow(c, values);
            && (r == Bad(EmptyRow) <==> prompt == "" && a == "" && b == "")
            && (r == Bad(MissingPrompt) <==> prompt == "" && (a != "" || b != ""))
            && (r == Bad(MissingResponseA) <==> prompt != "" && a == "")
            && (r == Bad(MissingResponseB) <==> prompt != "" && a != "" && b == "")
            && (r == Bad(GoldWithoutAnswer) <==> whole && !answered)
            && (r == Bad(BadDifficulty) <==> whole && answered && !rated)
            && (r.Good? <==> whole && answered && rated)
            && (r.Good? ==>
                  && r.row.prompt == prompt && r.row.responseA == a && r.row.responseB == b
                  && r.row.isGold == gold
                  && r.row.goldAnswer == (if !gold then None else if answer == "A" then Some(A) else Some(B))
                  && r.row.responseTarget == ParseTarget(Cell(values, c.responseTarget))
                  && r.row.category == (if Cell(values, c.category) == "" then None else Some(Cell(values, c.category)))
                  && r.row.difficulty == (if difficulty == "" then None else ParseDifficulty(difficulty)))
  {
    hide Cell, Upper, SaysGold, ParseTarget, ParseDifficulty;
  }

  /** Lines from `i` on that are not blank. */
  function NonBlank(lines: seq<string>, i: nat): nat
    requires i <= |lines|
    decreases |lines| - i
  {
    if i == |lines| then 0 else NonBlank(lines, i + 1) + (if Blank(lines[i]) then 0 else 1)
  }

  /** An error points at a line of the file that is not blank and is refused for that reason. */
  predicate PointsAt(c: Columns, lines: seq<string>, e: FileError) {
    e.AtRow? && 1 <= e.line <= |lines| && !Blank(lines[e.line - 1]) && ParseRow(c, ParseLine(lines[e.line - 1])) == Bad(e.error)
  }

  /** What reading from line `i` adds: rows of good lines, errors that point at theirs, and the limit's at most at the end. */
  ghost predicate ReadsOn(c: Columns, lines: seq<string>, i: nat, rows: seq<TaskRow>, errors: seq<FileError>,
                          read: (seq<TaskRow>, seq<FileError>))
    requires i <= |lines|
  {
    && rows <= read.0 && errors <= read.1
    && |read.0| <= (if |rows| <= MAX_ROWS then MAX_ROWS else |rows|)
    && (forall k :: |errors| <= k < |read.1| ==>
          PointsAt(c, lines, read.1[k]) || (read.1[k] == RowLimitReached && k == |read.1| - 1 && |read.0| >= MAX_ROWS))
    && (read.1 == errors || read.1[|read.1| - 1] != RowLimitReached ==>
          |read.0| + |read.1| == |rows| + |errors| + NonBlank(lines, i))
  }

  /**
   No line is lost: every one that is not blank becomes a row or an error that names it and
   says why, unless the row limit ends the file, which is then its last error.
   */
  lemma {:induction false} EveryLineRead(c: Columns, lines: seq<string>, i: nat, rows: seq<TaskRow>, errors: seq<FileError>)
    requires i <= |lines|
    ensures ReadsOn(c, lines, i, rows, errors, ParseFrom(c, lines, i, rows, errors))
    decreases |lines| - i
  {
    hide Trim, ParseRow, ParseLine;
    if i < |lines| && !Blank(lines[i]) && |rows| < MAX_ROWS {
      match ParseRow(c, ParseLine(lines[i])) {
        case Bad(error) => EveryLineRead(c, lines, i + 1, rows, errors + [AtRow(i + 1, error)]);
        case Good(row) => EveryLineRead(c, lines, i + 1, rows + [row], errors);
      }
    } else if i < |lines| && Blank(lines[i]) {
      EveryLineRead(c, lines, i + 1, rows, errors);
    }
  }

  /** Digits after an optional sign, whatever follows them, read as their value; zero and a minus as no target. */
  lemma TargetReads(digits: string, rest: string)
    requires digits != "" && (forall i :: 0 <= i < |digits| ==> IsDigit(digits[i])) && (rest == "" || !IsDigit(rest[0]))
    ensures var n := ValueOf(digits);
            && ParseTarget(digits + rest) == (if n == 0 then None else Some(n))
            && ParseTarget(['+'] + (digits + rest)) == (if n == 0 then None else Some(n))
            && ParseTarget(['-'] + (digits + rest)) == None
  {
    PrefixStops(digits, rest);
    var s := digits + rest;
    assert s[0] == digits[0] && IsDigit(s[0]);
    TargetOfSigned('+', s, digits);
    TargetOfSigned('-', s, digits);
    TargetOfUnsigned(s, digits);
    hide ParseTarget, ValueOf, DigitPrefix;
  }

  lemma TargetOfUnsigned(s: string, digits: string)
    requires s != "" && IsDigit(s[0]) && DigitPrefix(s) == digits && digits != ""
    requires forall i :: 0 <= i < |digits| ==> IsDigit(digits[i])
    ensures ParseTarget(s) == if ValueOf(digits) == 0 then None else Some(ValueOf(digits))
  {
    hide DigitPrefix, ValueOf;
  }

  lemma TargetOfSigned(sign: char, s: string, digits: string)
    requires (sign == '+' || sign == '-') && DigitPrefix(s) == digits && digits != ""
    requires forall i :: 0 <= i < |digits| ==> IsDigit(digits[i])
    ensures ParseTarget([sign] + s) == if ValueOf(digits) == 0 || sign == '-' then None else Some(ValueOf(digits))
  {
    assert ([sign] + s)[1..] == s && ([sign] + s)[0] == sign;
    hide DigitPrefix, ValueOf;
  }

  lemma {:induction false} PrefixStops(digits: string, rest: string)
    requires (forall i :: 0 <= i < |digits| ==> IsDigit(digits[i])) && (rest == "" || !IsDigit(rest[0]))
    ensures DigitPrefix(digits + rest) == digits
  {
    if digits == "" {
      assert digits + rest == rest;
    } else {
      assert (digits + rest)[1..] == digits[1..] + rest;
      PrefixStops(digits[1..], rest);
      assert [digits[0]] + digits[1..] == digits;
    }
  }

  // ----- the writer -----

  function Digits(n: nat): string {
    if n < 10 then [('0' as int + n) as char] else Digits(n / 10) + [('0' as int + n % 10) as char]
  }

  function NumberField(n: Option<nat>): string {
    if n.Some? then Digits(n.value) else ""
  }

  function GoldField(isGold: bool): string {
    if isGold then "true" else ""
  }

  function AnswerField(a: Option<Answer>): string {
    if a == None then "" else if a.value == A then "A" else "B"
  }

  function Fields(r: TaskRow): (f: seq<string>)
    ensures |f| == 8
  {
    [r.prompt, r.responseA, r.responseB, NumberField(r.responseTarget), if r.category.Some? then r.category.value else "",
     GoldField(r.isGold), AnswerField(r.goldAnswer), NumberField(r.difficulty)]
  }

  const NAMES: seq<string> := ["prompt", "responsea", "responseb", "responsetarget", "category", "isgold", "goldanswer", "difficulty"]

  function RowLines(rows: seq<TaskRow>): (lines: seq<string>)
    ensures |lines| == |rows|
  {
    if rows == [] then [] else RowLines(rows[..|rows| - 1]) + [EncodeLine(Fields(rows[|rows| - 1]))]
  }

  function Write(rows: seq<TaskRow>): string {
    Join([Join(NAMES, COMMA)] + RowLines(rows), LF)
  }

  predicate OneLine(s: string) {
    LF !in s && CR !in s && NUL !in s
  }

  /** A row the parser can return: trimmed required fields, a gold row with its answer, a difficulty in range. */
  predicate ValidRow(r: TaskRow) {
    && Trimmed(r.prompt) && Trimmed(r.responseA) && Trimmed(r.responseB)
    && OneLine(r.prompt) && OneLine(r.responseA) && OneLine(r.responseB)
    && (r.responseTarget.Some? ==> r.responseTarget.value > 0)
    && (r.category.Some? ==> Trimmed(r.category.value) && OneLine(r.category.value))
    && (r.isGold <==> r.goldAnswer.Some?)
    && (r.difficulty.Some? ==> 1 <= r.difficulty.value <= 9)
  }

  // ----- string facts -----

  lemma TrimmedStays(s: string)
    requires s == "" || Trimmed(s)
    ensures Trim(s) == s
  {
  }

  lemma {:induction false} SplitWhole(s: string, c: char)
    requires c !in s
    ensures Split(s, c) == [s]
  {
    if s != "" {
      SplitWhole(s[1..], c);
      assert [s[0]] + s[1..] == s;
    }
  }

  lemma {:induction false} SplitFirst(a: string, rest: string, c: char)
    requires c !in a
    ensures Split(a + [c] + rest, c) == [a] + Split(rest, c)
  {
    var s := a + [c] + rest;
    if a == "" {
      assert s == [c] + rest && s[1..] == rest;
    } else {
      assert s[1..] == a[1..] + [c] + rest;
      SplitFirst(a[1..], rest, c);
      assert ([a[1..]] + Split(rest, c))[1..] == Split(rest, c);
      assert [a[0]] + a[1..] == a;
    }
  }

  /** Splitting undoes joining when no part holds the separator. */
  lemma {:induction false} SplitJoin(parts: seq<string>, c: char)
    requires parts != [] && forall i :: 0 <= i < |parts| ==> c !in parts[i]
    ensures Split(Join(parts, c), c) == parts
  {
    if |parts| == 1 {
      SplitWhole(parts[0], c);
    } else {
      SplitFirst(parts[0], Join(parts[1..], c), c);
      SplitJoin(parts[1..], c);
    }
  }

  lemma {:induction false} NormalizeStays(s: string)
    requires CR !in s
    ensures Normalize(s) == s
  {
    if s != "" {
      NormalizeStays(s[1..]);
    }
  }

  lemma {:induction false} JoinShape(parts: seq<string>, c: char, d: char)
    requires parts != [] && c != d
    requires forall i :: 0 <= i < |parts| ==> d !in parts[i] && parts[i] != ""
    ensures d !in Join(parts, c)
    ensures var s := Join(parts, c);
            s != "" && s[0] == parts[0][0] && s[|s| - 1] == parts[|parts| - 1][|parts[|parts| - 1]| - 1]
  {
    if |parts| > 1 {
      JoinShape(parts[1..], c, d);
    }
  }

  lemma {:induction false} DigitsParse(n: nat)
    ensures Digits(n) != "" && (forall i :: 0 <= i < |Digits(n)| ==> IsDigit(Digits(n)[i])) && ValueOf(Digits(n)) == n
    decreases n
  {
    if n >= 10 {
      DigitsParse(n / 10);
      var more := Digits(n / 10);
      assert (more + [('0' as int + n % 10) as char])[..|more|] == more;
    }
  }

  lemma {:induction false} DigitPrefixWhole(s: string)
    requires forall i :: 0 <= i < |s| ==> IsDigit(s[i])
    ensures DigitPrefix(s) == s
  {
    if s != "" {
      DigitPrefixWhole(s[1..]);
    }
  }

  /** A number written in digits reads back as a target, and as a difficulty when it is one. */
  lemma DigitsReadBack(n: nat)
    requires n > 0
    ensures Trim(Digits(n)) == Digits(n) && ParseTarget(Digits(n)) == Some(n)
    ensures 1 <= n <= 9 ==> ParseDifficulty(Digits(n)) == Some(n)
    ensures OneLine(Digits(n)) && Digits(n) != ""
  {
    DigitsParse(n);
    DigitPrefixWhole(Digits(n));
    assert IsDigit(Digits(n)[0]) && IsDigit(Digits(n)[|Digits(n)| - 1]);
    TrimmedStays(Digits(n));
  }

  // ----- one row -----

  lemma NamesFound()
    ensures ColumnsOf(NAMES) == Columns(Some(0), Some(1), Some(2), Some(3), Some(4), Some(5), Some(6), Some(7))
  {
    assert NAMES[0] == "prompt" && NAMES[1] == "responsea" && NAMES[2] == "responseb" && NAMES[3] == "responsetarget";
    assert NAMES[4] == "category" && NAMES[5] == "isgold" && NAMES[6] == "goldanswer" && NAMES[7] == "difficulty";
    FirstAt(NAMES, 0); FirstAt(NAMES, 1); FirstAt(NAMES, 2); FirstAt(NAMES, 3);
    FirstAt(NAMES, 4); FirstAt(NAMES, 5); FirstAt(NAMES, 6); FirstAt(NAMES, 7);
  }

  lemma FirstAt(names: seq<string>, k: nat)
    requires k < |names| && forall i :: 0 <= i < k ==> names[i] != names[k]
    ensures IndexOf(names, names[k]) == Some(k)
  {
    FirstFrom(names, k, 0);
  }

  lemma {:induction false} FirstFrom(names: seq<string>, k: nat, from: nat)
    requires from <= k < |names| && forall i :: from <= i < k ==> names[i] != names[k]
    ensures IndexFrom(names, names[k], from) == Some(k)
    decreases k - from
  {
    if from < k {
      FirstFrom(names, k, from + 1);
    }
  }

  lemma Words()
    ensures SaysGold("true") && !SaysGold("") && ParseAnswer("A") == Some(A) && ParseAnswer("B") == Some(B)
    ensures Trim("true") == "true" && Trim("A") == "A" && Trim("B") == "B" && Trim("") == ""
    ensures ParseTarget("") == None
    ensures OneLine("true") && OneLine("A") && OneLine("B") && OneLine("")
  {
    assert Lower("true") == "true";
    assert |Lower("")| == 0;
    assert Upper("A") == "A" && Upper("B") == "B";
    assert Upper("B")[0] != 'A';
    TrimmedStays("true");
    TrimmedStays("A");
    TrimmedStays("B");
  }

  /** Gold and its answer are read in either case. */
  lemma WordsInEitherCase()
    ensures SaysGold("1") && SaysGold("yes") && SaysGold("YES") && !SaysGold("no")
    ensures ParseAnswer("a") == Some(A) && ParseAnswer("b") == Some(B) && ParseAnswer("") == None
  {
    assert Lower("1") == "1" && Lower("yes") == "yes" && Lower("YES") == "yes" && |Lower("no")| == 2 && Lower("no")[0] == 'n';
    assert Upper("a") == "A" && Upper("b") == "B" && |Upper("")| == 0;
    assert Upper("b")[0] != 'A';
  }

  /** A field that needs no trimming, and stays on its line. */
  predicate Settled(f: string) {
    Trim(f) == f && OneLine(f)
  }

  lemma OptionalFieldsSettled(r: TaskRow)
    requires ValidRow(r)
    ensures Settled(NumberField(r.responseTarget)) && Settled(NumberField(r.difficulty))
    ensures Settled(GoldField(r.isGold)) && Settled(AnswerField(r.goldAnswer)) && Settled("")
  {
    Words();
    if r.responseTarget.Some? { DigitsReadBack(r.responseTarget.value); }
    if r.difficulty.Some? { DigitsReadBack(r.difficulty.value); }
    hide Trim, OneLine, Trimmed, Digits, ParseTarget, ParseDifficulty, SaysGold, ParseAnswer;
  }

  lemma TextFieldsSettled(r: TaskRow)
    requires ValidRow(r)
    ensures Settled(r.prompt) && Settled(r.responseA) && Settled(r.responseB) && (r.category.Some? ==> Settled(r.category.value))
    ensures r.category.Some? ==> r.category.value != ""
  {
    TrimmedStays(r.prompt);
    TrimmedStays(r.responseA);
    TrimmedStays(r.responseB);
    if r.category.Some? { TrimmedStays(r.category.value); }
    hide Trim;
  }

  /** Every field of a written row is trimmed already, and stays on its line. */
  lemma FieldsStay(r: TaskRow)
    requires ValidRow(r)
    ensures forall k: nat :: k < 8 ==> Cell(Fields(r), Some(k)) == Fields(r)[k] && OneLine(Fields(r)[k])
    ensures r.category.Some? ==> Fields(r)[4] != ""
  {
    TextFieldsSettled(r);
    OptionalFieldsSettled(r);
    hide Trim, OneLine, Trimmed, NumberField, GoldField, AnswerField, ValidRow;
    forall k: nat | k < 8 ensures Settled(Fields(r)[k]) {
      assert k == 0 || k == 1 || k == 2 || k == 3 || k == 4 || k == 5 || k == 6 || k == 7;
    }
    hide Fields;
  }

  /** What each field of a written row says, cell by cell. */
  lemma CellsSayRow(r: TaskRow, f: seq<string>)
    requires ValidRow(r) && f == Fields(r)
    ensures Cell(f, Some(0)) == r.prompt != "" && Cell(f, Some(1)) == r.responseA != "" && Cell(f, Some(2)) == r.responseB != ""
    ensures ParseTarget(Cell(f, Some(3))) == r.responseTarget
    ensures (if Cell(f, Some(4)) == "" then None else Some(Cell(f, Some(4)))) == r.category
    ensures SaysGold(Cell(f, Some(5))) == r.isGold
    ensures r.isGold ==> ParseAnswer(Cell(f, Some(6))) == r.goldAnswer
    ensures if r.difficulty == None then Cell(f, Some(7)) == ""
            else Cell(f, Some(7)) != "" && ParseDifficulty(Cell(f, Some(7))) == r.difficulty
  {
    FieldsStay(r);
    FieldsSayRow(r);
    assert r.prompt != "" && r.responseA != "" && r.responseB != "";
    hide Cell, ParseTarget, ParseDifficulty, SaysGold, ParseAnswer, NumberField, GoldField, AnswerField, OneLine, Trimmed;
    assert Cell(f, Some(0)) == f[0] && Cell(f, Some(1)) == f[1] && Cell(f, Some(2)) == f[2] && Cell(f, Some(3)) == f[3];
    assert Cell(f, Some(4)) == f[4] && Cell(f, Some(5)) == f[5] && Cell(f, Some(6)) == f[6] && Cell(f, Some(7)) == f[7];
  }

  /** The optional fields, each by itself. */
  lemma FieldsSayRow(r: TaskRow)
    requires ValidRow(r)
    ensures ParseTarget(NumberField(r.responseTarget)) == r.responseTarget
    ensures SaysGold(GoldField(r.isGold)) == r.isGold
    ensures r.isGold ==> ParseAnswer(AnswerField(r.goldAnswer)) == r.goldAnswer
    ensures if r.difficulty == None then NumberField(r.difficulty) == ""
            else NumberField(r.difficulty) != "" && ParseDifficulty(NumberField(r.difficulty)) == r.difficulty
  {
    Words();
    if r.responseTarget.Some? { DigitsReadBack(r.responseTarget.value); }
    if r.difficulty.Some? { DigitsReadBack(r.difficulty.value); }
    hide ParseTarget, ParseDifficulty, SaysGold, ParseAnswer, Digits, Trim, OneLine;
  }

  /** A written row's fields parse back to the row. */
  lemma RowReadsBack(r: TaskRow)
    requires ValidRow(r)
    ensures ParseRow(Columns(Some(0), Some(1), Some(2), Some(3), Some(4), Some(5), Some(6), Some(7)), Fields(r)) == Good(r)
    ensures forall i :: 0 <= i < |Fields(r)| ==> OneLine(Fields(r)[i])
  {
    FieldsStay(r);
    CellsSayRow(r, Fields(r));
    hide Cell, ParseTarget, ParseDifficulty, SaysGold, ParseAnswer, OneLine, Trimmed, Fields;
  }

  // ----- the whole file -----

  lemma {:induction false} RowLinesAre(rows: seq<TaskRow>, k: nat)
    requires k < |rows|
    ensures RowLines(rows)[k] == EncodeLine(Fields(rows[k]))
    decreases |rows|
  {
    if k < |rows| - 1 {
      RowLinesAre(rows[..|rows| - 1], k);
    }
  }

  ghost predicate AllValid(rows: seq<TaskRow>) {
    forall k :: 0 <= k < |rows| ==> ValidRow(rows[k])
  }

  /** A written line holds no line break, starts and ends with a quote, and parses back to its row. */
  lemma LineReadsBack(r: TaskRow)
    requires ValidRow(r)
    ensures var line := EncodeLine(Fields(r));
            && OneLine(line) && Trimmed(line) && ParseLine(line) == Fields(r)
  {
    RowReadsBack(r);
    EncodedLineShape(Fields(r), LF);
    EncodedLineShape(Fields(r), CR);
    EncodedLineShape(Fields(r), NUL);
    ParseUndoesEncode(Fields(r));
  }

  /** One written line is read as its row, or refused by the limit. */
  lemma OneLineRead(c: Columns, rows: seq<TaskRow>, lines: seq<string>, i: nat, read: seq<TaskRow>)
    requires c == Columns(Some(0), Some(1), Some(2), Some(3), Some(4), Some(5), Some(6), Some(7))
    requires AllValid(rows) && Encoded(rows, lines) && 1 <= i < |lines|
    ensures ParseFrom(c, lines, i, read, []) == if |read| >= MAX_ROWS then (read, [RowLimitReached])
                                                else ParseFrom(c, lines, i + 1, read + [rows[i - 1]], [])
  {
    var r := rows[i - 1];
    LineReadsBack(r);
    RowReadsBack(r);
    assert lines[i] == EncodeLine(Fields(r));
    TrimmedStays(lines[i]);
    assert lines[i] != "";
    hide ParseRow, EncodeLine, Trim, ParseLine, Fields, Trimmed, OneLine, ValidRow;
    assert [] + [RowLimitReached] == [RowLimitReached];
  }

  lemma EndOfFile(c: Columns, lines: seq<string>, rows: seq<TaskRow>)
    ensures ParseFrom(c, lines, |lines|, rows, []) == (rows, [])
  {
  }

  /** Parsing the lines of the first rows, up to the limit, gives them back; one row more is the row limit error. */
  lemma {:induction false} RowsReadBack(c: Columns, rows: seq<TaskRow>, lines: seq<string>, i: nat)
    requires c == Columns(Some(0), Some(1), Some(2), Some(3), Some(4), Some(5), Some(6), Some(7))
    requires AllValid(rows) && Encoded(rows, lines) && 1 <= i <= |lines| && i <= MAX_ROWS + 1
    ensures ParseFrom(c, lines, i, rows[..i - 1], [])
            == if |rows| <= MAX_ROWS then (rows, []) else (rows[..MAX_ROWS], [RowLimitReached])
    decreases |lines| - i
  {
    hide ParseFrom, AllValid;
    if i == |lines| {
      assert rows[..i - 1] == rows;
      EndOfFile(c, lines, rows);
    } else {
      OneLineRead(c, rows, lines, i, rows[..i - 1]);
      if i <= MAX_ROWS {
        assert rows[..i - 1] + [rows[i - 1]] == rows[..i];
        RowsReadBack(c, rows, lines, i + 1);
      }
    }
  }

  predicate LowerLetters(s: string) {
    s != "" && forall k :: 0 <= k < |s| ==> 'a' <= s[k] <= 'z'
  }

  lemma CleanName(name: string)
    requires LowerLetters(name)
    ensures COMMA !in name && LF !in name && CR !in name && NUL !in name && Trimmed(name) && Lower(Trim(name)) == name
  {
    TrimmedStays(name);
    assert forall k :: 0 <= k < |name| ==> Lower(name)[k] == name[k];
  }

  ghost predicate LowerNames(names: seq<string>) {
    names != [] && forall i :: 0 <= i < |names| ==> LowerLetters(names[i])
  }

  lemma NamesAreLower()
    ensures LowerNames(NAMES)
  {
  }

  /** A bare, comma-joined header of lower-case names reads back as those names. */
  lemma HeaderReadsBack(names: seq<string>)
    requires LowerNames(names)
    ensures Headers(Join(names, COMMA)) == names && Split(Join(names, COMMA), COMMA) == names
    ensures OneLine(Join(names, COMMA)) && Trimmed(Join(names, COMMA))
  {
    forall i | 0 <= i < |names|
      ensures COMMA !in names[i] && LF !in names[i] && CR !in names[i] && NUL !in names[i]
      ensures names[i] != "" && Trimmed(names[i]) && Lower(Trim(names[i])) == names[i]
    {
      CleanName(names[i]);
    }
    SplitJoin(names, COMMA);
    JoinShape(names, COMMA, LF);
    JoinShape(names, COMMA, CR);
    JoinShape(names, COMMA, NUL);
    hide Lower, Trim, Join, Split;
    assert forall i :: 0 <= i < |names| ==> Headers(Join(names, COMMA))[i] == names[i];
  }

  /** Lines that hold no break and are trimmed come back from their joined text. */
  lemma LinesOfJoin(parts: seq<string>)
    requires parts != [] && forall i :: 0 <= i < |parts| ==> OneLine(parts[i]) && Trimmed(parts[i])
    ensures Lines(Join(parts, LF)) == parts && NUL !in WithoutBom(Join(parts, LF))
  {
    var text := Join(parts, LF);
    JoinShape(parts, LF, CR);
    JoinShape(parts, LF, NUL);
    assert Trimmed(text) && text[0] != BOM;
    NormalizeStays(text);
    TrimmedStays(text);
    SplitJoin(parts, LF);
  }

  /** A written file's lines are its header and its rows'. */
  lemma LinesReadBack(header: string, rows: seq<TaskRow>)
    requires OneLine(header) && Trimmed(header) && AllValid(rows)
    ensures var text := Join([header] + RowLines(rows), LF);
            Lines(text) == [header] + RowLines(rows) && NUL !in WithoutBom(text)
  {
    var parts := [header] + RowLines(rows);
    forall i | 0 <= i < |parts| ensures OneLine(parts[i]) && Trimmed(parts[i]) {
      if i > 0 {
        RowLineSettled(rows, i - 1);
      }
    }
    hide OneLine, Trimmed, Join, Lines, WithoutBom, AllValid, RowLines;
    LinesOfJoin(parts);
  }

  lemma RowLineSettled(rows: seq<TaskRow>, k: nat)
    requires AllValid(rows) && k < |rows|
    ensures OneLine(RowLines(rows)[k]) && Trimmed(RowLines(rows)[k])
  {
    RowLinesAre(rows, k);
    LineReadsBack(rows[k]);
    hide OneLine, Trimmed, EncodeLine, Fields, ParseLine, ValidRow;
  }

  /** Such lines pass the schema check. */
  lemma SchemaAccepts(text: string, lines: seq<string>)
    requires NUL !in WithoutBom(text) && Lines(text) == lines && |lines| > 1
    requires Trim(lines[0]) != "" && Trim(lines[1]) != ""
    requires Headers(lines[0]) == NAMES && |Split(lines[0], COMMA)| > 1
    ensures ValidateSchema(text) == None
  {
    hide Lines, Headers, Trim, Split, WithoutBom;
    assert lines[1..][0] == lines[1];
    assert NAMES[0] == "prompt" && NAMES[1] == "responsea" && NAMES[2] == "responseb";
  }

  /** A written file passes the schema check, and its header and lines are what was written. */
  lemma FileAccepted(rows: seq<TaskRow>)
    requires AllValid(rows) && rows != []
    ensures var header := Join(NAMES, COMMA);
            && ValidateSchema(Write(rows)) == None
            && Lines(Write(rows)) == [header] + RowLines(rows) && Headers(header) == NAMES
  {
    var header := Join(NAMES, COMMA);
    var lines := [header] + RowLines(rows);
    NamesAreLower();
    HeaderReadsBack(NAMES);
    LinesReadBack(header, rows);
    TrimmedStays(header);
    RowLineSettled(rows, 0);
    TrimmedStays(RowLines(rows)[0]);
    assert header != "" && RowLines(rows)[0] != "";
    hide Trim, Split, Headers, Join, Lines, WithoutBom, RowLines, OneLine, Trimmed, AllValid, LowerNames;
    SchemaAccepts(Write(rows), lines);
  }

  /**
   The round trip: a file of one or more valid rows passes the schema check and parses
   back to exactly those rows with no errors, up to the row limit; past it, to the first
   `MAX_ROWS` of them and the one error that says so.
   */
  lemma FileReadsBack(rows: seq<TaskRow>)
    requires AllValid(rows) && rows != []
    ensures ParseFile(Write(rows)) == if |rows| <= MAX_ROWS then Parsed(rows, [], None)
                                      else Parsed(rows[..MAX_ROWS], [RowLimitReached], None)
  {
    FileAccepted(rows);
    NamesFound();
    hide Join, ValidateSchema, Lines, Write, Headers, ColumnsOf, ParseFrom, RowLines, AllValid, EncodeLine, Fields;
    LinesAreEncoded(rows, Lines(Write(rows)));
    assert rows[..0] == [];
    RowsReadBack(ColumnsOf(NAMES), rows, Lines(Write(rows)), 1);
  }

  /** Line `k + 1` is row `k`, encoded. */
  ghost predicate Encoded(rows: seq<TaskRow>, lines: seq<string>) {
    |lines| == |rows| + 1 && forall k :: 0 <= k < |rows| ==> lines[k + 1] == EncodeLine(Fields(rows[k]))
  }

  lemma LinesAreEncoded(rows: seq<TaskRow>, lines: seq<string>)
    requires |lines| == |rows| + 1 && lines[1..] == RowLines(rows)
    ensures Encoded(rows, lines)
  {
    forall k | 0 <= k < |rows| ensures lines[k + 1] == EncodeLine(Fields(rows[k])) {
      RowLinesAre(rows, k);
      assert lines[k + 1] == lines[1..][k];
    }
  }
}
