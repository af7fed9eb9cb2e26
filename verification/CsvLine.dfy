/**
 The quote-aware line parser, against the quoting encoder of RFC 4180, section 2:
 parsing a line of quoted, comma-joined fields gives back exactly those fields.
 */
module CsvLine {
  const QUOTE: char := '\"'
  const COMMA: char := ','

  /** What the parser's loop still owes of a line, from its two variables. */
  function Scan(s: string, inQuotes: bool, current: string): (values: seq<string>)
    ensures values != []
    decreases |s|
  {
    if s == "" then [current]
    else if s[0] == QUOTE && inQuotes && |s| > 1 && s[1] == QUOTE then Scan(s[2..], true, current + [QUOTE])
    else if s[0] == QUOTE then Scan(s[1..], !inQuotes, current)
    else if s[0] == COMMA && !inQuotes then [current] + Scan(s[1..], false, "")
    else Scan(s[1..], inQuotes, current + [s[0]])
  }

  function ParseLine(line: string): seq<string> {
    Scan(line, false, "")
  }

  /** `parseCSVLine`: one pass with an index, the field being built, and whether it is inside quotes. */
  method ParseCSVLine(line: string) returns (values: seq<string>)
    ensures values == ParseLine(line)
  {
    values := [];
    var current := "";
    var inQuotes := false;
    var i := 0;
    while i < |line|
      invariant 0 <= i <= |line|
      invariant values + Scan(line[i..], inQuotes, current) == ParseLine(line)
    {
      var c := line[i];
      var rest := line[i..];
      assert rest[1..] == line[i + 1..] && rest[0] == c && (i + 1 < |line| ==> rest[1] == line[i + 1]);
      if c == QUOTE && inQuotes && i + 1 < |line| && line[i + 1] == QUOTE {
        assert rest[2..] == line[i + 2..];
        current := current + [QUOTE];
        i := i + 1;
      } else if c == QUOTE {
        inQuotes := !inQuotes;
      } else if c == COMMA && !inQuotes {
        assert values + ([current] + Scan(rest[1..], false, "")) == (values + [current]) + Scan(rest[1..], false, "");
        values := values + [current];
        current := "";
      } else {
        current := current + [c];
      }
      i := i + 1;
    }
    values := values + [current];
  }

  // ----- the encoder -----

  /** A field's quotes, doubled. */
  function Escape(f: string): string {
    if f == "" then "" else (if f[0] == QUOTE then [QUOTE, QUOTE] else [f[0]]) + Escape(f[1..])
  }

  function Quote(f: string): string {
    [QUOTE] + Escape(f) + [QUOTE]
  }

  function EncodeLine(fields: seq<string>): string
    requires fields != []
  {
    if |fields| == 1 then Quote(fields[0]) else Quote(fields[0]) + [COMMA] + EncodeLine(fields[1..])
  }

  /** A closing quote, and then the end of the line or the next field. */
  predicate Closes(rest: string) {
    rest != "" && rest[0] == QUOTE && (|rest| == 1 || rest[1] == COMMA)
  }

  /** Inside quotes, an escaped field is read back whole, up to its closing quote. */
  lemma {:induction false} ScanEscaped(f: string, rest: string, current: string)
    requires Closes(rest)
    ensures Scan(Escape(f) + rest, true, current) == Scan(rest[1..], false, current + f)
    decreases |f|
  {
    if f == "" {
      assert Escape(f) + rest == rest && current + f == current;
    } else {
      var head := if f[0] == QUOTE then [QUOTE, QUOTE] else [f[0]];
      var more := Escape(f[1..]) + rest;
      assert Escape(f) + rest == head + more;
      assert (head + more)[|head|..] == more;
      ScanEscaped(f[1..], rest, current + [f[0]]);
      assert current + [f[0]] + f[1..] == current + f;
    }
  }

  /** One quoted field followed by the rest of its line. */
  lemma ScanQuoted(f: string, tail: string)
    requires tail == "" || tail[0] == COMMA
    ensures Scan(Quote(f) + tail, false, "") == Scan(tail, false, f)
  {
    var rest := [QUOTE] + tail;
    assert Quote(f) + tail == [QUOTE] + (Escape(f) + rest);
    assert ([QUOTE] + (Escape(f) + rest))[1..] == Escape(f) + rest;
    assert rest[1..] == tail;
    ScanEscaped(f, rest, "");
    assert "" + f == f;
  }

  /** Parsing undoes quoting, for any non-empty list of fields whatever they hold. */
  lemma {:induction false} ParseUndoesEncode(fields: seq<string>)
    requires fields != []
    ensures ParseLine(EncodeLine(fields)) == fields
    decreases |fields|
  {
    if |fields| == 1 {
      ScanQuoted(fields[0], "");
      assert Quote(fields[0]) + "" == Quote(fields[0]);
    } else {
      var tail := [COMMA] + EncodeLine(fields[1..]);
      assert EncodeLine(fields) == Quote(fields[0]) + tail;
      ScanQuoted(fields[0], tail);
      assert tail[1..] == EncodeLine(fields[1..]);
      ParseUndoesEncode(fields[1..]);
      assert [fields[0]] + fields[1..] == fields;
    }
  }

  // ----- any line -----

  /** Commas with an even number of quotes before them, `inQuotes` standing for one more. */
  function OutsideCommas(s: string, inQuotes: bool): nat {
    if s == "" then 0
    else if s[0] == QUOTE then OutsideCommas(s[1..], !inQuotes)
    else (if s[0] == COMMA && !inQuotes then 1 else 0) + OutsideCommas(s[1..], inQuotes)
  }

  /** What is neither a quote nor such a comma. */
  function Plain(s: string, inQuotes: bool): string {
    if s == "" then ""
    else if s[0] == QUOTE then Plain(s[1..], !inQuotes)
    else (if s[0] == COMMA && !inQuotes then "" else [s[0]]) + Plain(s[1..], inQuotes)
  }

  function NoQuotes(s: string): string {
    if s == "" then "" else (if s[0] == QUOTE then "" else [s[0]]) + NoQuotes(s[1..])
  }

  function Concat(values: seq<string>): string {
    if values == [] then "" else values[0] + Concat(values[1..])
  }

  lemma {:induction false} NoQuotesJoin(a: string, b: string)
    ensures NoQuotes(a + b) == NoQuotes(a) + NoQuotes(b)
  {
    if a == "" {
      assert a + b == b;
    } else {
      assert (a + b)[1..] == a[1..] + b;
      NoQuotesJoin(a[1..], b);
    }
  }

  lemma {:induction false} ScanCounts(s: string, inQuotes: bool, current: string)
    ensures |Scan(s, inQuotes, current)| == 1 + OutsideCommas(s, inQuotes)
    decreases |s|
  {
    if s == "" {
    } else if s[0] == QUOTE && inQuotes && |s| > 1 && s[1] == QUOTE {
      ScanCounts(s[2..], true, current + [QUOTE]);
      assert s[1..][1..] == s[2..];
    } else if s[0] == QUOTE {
      ScanCounts(s[1..], !inQuotes, current);
    } else if s[0] == COMMA && !inQuotes {
      ScanCounts(s[1..], false, "");
    } else {
      ScanCounts(s[1..], inQuotes, current + [s[0]]);
    }
  }

  /** One field in front, and what the rest holds behind it. */
  lemma PlainConcat(current: string, rest: seq<string>)
    ensures NoQuotes(Concat([current] + rest)) == NoQuotes(current) + NoQuotes(Concat(rest))
  {
    assert ([current] + rest)[1..] == rest;
    NoQuotesJoin(current, Concat(rest));
  }

  lemma PlainAppend(current: string, c: char)
    ensures NoQuotes(current + [c]) == NoQuotes(current) + (if c == QUOTE then "" else [c])
  {
    NoQuotesJoin(current, [c]);
    assert [c][1..] == "";
  }

  lemma {:induction false} ScanKeeps(s: string, inQuotes: bool, current: string)
    ensures NoQuotes(Concat(Scan(s, inQuotes, current))) == NoQuotes(current) + Plain(s, inQuotes)
    decreases |s|
  {
    if s == "" {
      PlainConcat(current, []);
      assert [current] + [] == [current];
    } else if s[0] == QUOTE && inQuotes && |s| > 1 && s[1] == QUOTE {
      ScanKeeps(s[2..], true, current + [QUOTE]);
      PlainAppend(current, QUOTE);
      hide NoQuotes, Concat;
      assert s[1..][1..] == s[2..];
    } else if s[0] == QUOTE {
      hide NoQuotes, Concat;
      ScanKeeps(s[1..], !inQuotes, current);
    } else if s[0] == COMMA && !inQuotes {
      ScanKeeps(s[1..], false, "");
      PlainConcat(current, Scan(s[1..], false, ""));
      assert NoQuotes("") == "";
      hide NoQuotes, Concat;
    } else {
      ScanKeeps(s[1..], inQuotes, current + [s[0]]);
      PlainAppend(current, s[0]);
      hide NoQuotes, Concat;
    }
  }

  /**
   Of any line whatever: it has one field more than it has commas outside quotes, and its
   fields hold every other character but the quotes, in the line's order.
   */
  lemma FieldsKeepTheLine(line: string)
    ensures |ParseLine(line)| == 1 + OutsideCommas(line, false)
    ensures NoQuotes(Concat(ParseLine(line))) == Plain(line, false)
  {
    ScanCounts(line, false, "");
    ScanKeeps(line, false, "");
  }

  /** A bare field up to the next comma or the end. */
  lemma {:induction false} ScanBare(f: string, tail: string, current: string)
    requires COMMA !in f && QUOTE !in f && (tail == "" || tail[0] == COMMA)
    ensures Scan(f + tail, false, current) == Scan(tail, false, current + f)
    decreases |f|
  {
    if f == "" {
      assert f + tail == tail && current + f == current;
    } else {
      assert (f + tail)[1..] == f[1..] + tail;
      ScanBare(f[1..], tail, current + [f[0]]);
      assert current + [f[0]] + f[1..] == current + f;
    }
  }

  /** Each field quoted or, where it holds neither comma nor quote, as it is. */
  function EncodeMixed(fields: seq<string>, bare: seq<bool>): string
    requires fields != [] && |bare| == |fields|
  {
    var first := if bare[0] then fields[0] else Quote(fields[0]);
    if |fields| == 1 then first else first + [COMMA] + EncodeMixed(fields[1..], bare[1..])
  }

  /** So parsing undoes any such mixture of quoted and bare fields. */
  lemma {:induction false} ParseUndoesMixed(fields: seq<string>, bare: seq<bool>)
    requires fields != [] && |bare| == |fields|
    requires forall i :: 0 <= i < |fields| && bare[i] ==> COMMA !in fields[i] && QUOTE !in fields[i]
    ensures ParseLine(EncodeMixed(fields, bare)) == fields
    decreases |fields|
  {
    var first := if bare[0] then fields[0] else Quote(fields[0]);
    var tail := if |fields| == 1 then "" else [COMMA] + EncodeMixed(fields[1..], bare[1..]);
    assert EncodeMixed(fields, bare) == first + tail;
    if bare[0] {
      ScanBare(fields[0], tail, "");
      assert "" + fields[0] == fields[0];
    } else {
      ScanQuoted(fields[0], tail);
    }
    if |fields| > 1 {
      assert tail[1..] == EncodeMixed(fields[1..], bare[1..]);
      ParseUndoesMixed(fields[1..], bare[1..]);
      assert [fields[0]] + fields[1..] == fields;
    }
  }

  /** What an encoded line is made of: it starts and ends with a quote, and holds no character its fields do not, quotes and commas aside. */
  lemma {:induction false} EncodedLineShape(fields: seq<string>, c: char)
    requires fields != [] && c != QUOTE && c != COMMA
    requires forall i :: 0 <= i < |fields| ==> c !in fields[i]
    ensures var line := EncodeLine(fields);
            |line| >= 2 && line[0] == QUOTE && line[|line| - 1] == QUOTE && c !in line
    decreases |fields|
  {
    EscapeShape(fields[0], c);
    if |fields| > 1 {
      EncodedLineShape(fields[1..], c);
    }
  }

  lemma {:induction false} EscapeShape(f: string, c: char)
    requires c != QUOTE && c !in f
    ensures c !in Escape(f)
  {
    if f != "" {
      EscapeShape(f[1..], c);
    }
  }

  /**
   Without quotes around it a field survives only when it holds no comma and no quote:
   joining bare fields is undone exactly on those.
   */
  lemma {:induction false} BareField(f: string, current: string)
    ensures Scan(f, false, current) == [current + f] <==> (COMMA !in f && QUOTE !in f)
    decreases |f|
  {
    if f == "" {
      assert current + f == current;
    } else if f[0] == QUOTE {
      ScanLoses(f[1..], true, current, |f| - 1);
    } else if f[0] == COMMA {
      assert |Scan(f[1..], false, "")| > 0;
    } else {
      BareField(f[1..], current + [f[0]]);
      assert current + [f[0]] + f[1..] == current + f;
    }
  }

  /** No scan makes more characters than it reads. */
  lemma {:induction false} ScanLoses(s: string, inQuotes: bool, current: string, n: nat)
    requires |s| <= n
    ensures |Scan(s, inQuotes, current)| == 1 ==> |Scan(s, inQuotes, current)[0]| <= |current| + n
    decreases |s|
  {
    if s == "" {
    } else if s[0] == QUOTE && inQuotes && |s| > 1 && s[1] == QUOTE {
      ScanLoses(s[2..], true, current + [QUOTE], n - 1);
    } else if s[0] == QUOTE {
      ScanLoses(s[1..], !inQuotes, current, n - 1);
    } else if s[0] == COMMA && !inQuotes {
      assert |Scan(s[1..], false, "")| > 0;
    } else {
      ScanLoses(s[1..], inQuotes, current + [s[0]], n - 1);
    }
  }
}
