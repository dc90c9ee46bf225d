/** The history import script (scripts/import_csv.js): a character-by-character CSV
    reader in the style of RFC 4180 (quoted fields, doubled quotes, per-field trimming,
    blank lines dropped), the match-type normaliser, and the import loop that skips
    incomplete rows, drops duplicates and builds one match per remaining row. */
module CsvImport {
  import opened Text

  // ---------------------------------------------------------------------------
  // The reader

  /** The variables of the reader loop: finished rows, the row being built,
      the raw text of the field being read, and whether a quote is open. */
  datatype ScanState = ScanState(rows: seq<seq<string>>, row: seq<string>, value: string, inQuotes: bool)

  const Start := ScanState([], [], "", false)

  predicate IsLineBreak(c: char) { c == '\n' || c == '\r' }

  /** Ends the current row: the pending field is trimmed and pushed, the row is emitted. */
  function EndRow(st: ScanState): ScanState
  {
    ScanState(st.rows + [st.row + [Trim(st.value)]], [], "", st.inQuotes)
  }

  /** One pass of the loop body at the current character `s[0]` (`s[1]` being the one after
      it): the new variables, and how many characters the pass consumes. */
  function Advance(s: string, st: ScanState): (r: (ScanState, nat))
    requires s != []
    ensures 1 <= r.1 <= |s|
    ensures r.1 == 2 <==> s[0] == '"' && st.inQuotes && |s| > 1 && s[1] == '"'
  {
    var c := s[0];
    if c == '"' then
      if st.inQuotes && |s| > 1 && s[1] == '"' then (st.(value := st.value + ['"']), 2)
      else (st.(inQuotes := !st.inQuotes), 1)
    else if c == ',' && !st.inQuotes then (st.(row := st.row + [Trim(st.value)], value := ""), 1)
    else if IsLineBreak(c) && !st.inQuotes then
      (if |st.value| > 0 || |st.row| > 0 then EndRow(st) else st, 1)
    else (st.(value := st.value + [c]), 1)
  }

  /** The reader loop over the unread input `s`. */
  function Scan(s: string, st: ScanState): ScanState
    decreases |s|
  {
    if s == [] then st
    else
      var (st', w) := Advance(s, st);
      Scan(s[w..], st')
  }

  lemma ScanAdvance(s: string, i: nat, st: ScanState)
    requires i < |s|
    ensures var (st', w) := Advance(s[i..], st); i + w <= |s| && Scan(s[i..], st) == Scan(s[i + w..], st')
  {
    var (st', w) := Advance(s[i..], st);
    assert s[i..][w..] == s[i + w..];
  }

  /** One pass of the loop keeps the rest of the reader's work the same. */
  lemma ScanStep(s: string, i: nat, st: ScanState, st': ScanState, w: nat)
    requires i < |s| && Advance(s[i..], st) == (st', w)
    ensures i + w <= |s| && Scan(s[i + w..], st') == Scan(s[i..], st)
  {
    ScanAdvance(s, i, st);
  }

  /** What the reader does after the last character: a pending field or row is emitted. */
  function Flush(st: ScanState): seq<seq<string>>
  {
    if |st.value| > 0 || |st.row| > 0 then EndRow(st).rows else st.rows
  }

  /** The rows `parseCsv` returns for `content`. */
  function ParseCsvSpec(content: string): seq<seq<string>>
  {
    Flush(Scan(content, Start))
  }

  /** `parseCsv`: the index loop of the script, mutating `rows`, `row`, `value` and `inQuotes`. */
  method ParseCsv(content: string) returns (rows: seq<seq<string>>)
    ensures rows == ParseCsvSpec(content)
    ensures WellFormed(rows)
  {
    rows := [];
    var row: seq<string> := [];
    var value: string := "";
    var inQuotes := false;
    var i := 0;
    while i < |content|
      invariant 0 <= i <= |content|
      invariant Scan(content[i..], ScanState(rows, row, value, inQuotes)) == Scan(content, Start)
    {
      ghost var before, at := ScanState(rows, row, value, inQuotes), i;
      var c := content[i];
      if c == '"' {
        if inQuotes && i + 1 < |content| && content[i + 1] == '"' {
          value := value + ['"'];
          i := i + 1;
        } else {
          inQuotes := !inQuotes;
        }
      } else if c == ',' && !inQuotes {
        row := row + [Trim(value)];
        value := "";
      } else if (c == '\n' || c == '\r') && !inQuotes {
        if |value| > 0 || |row| > 0 {
          row := row + [Trim(value)];
          rows := rows + [row];
          row := [];
          value := "";
        }
      } else {
        value := value + [c];
      }
      i := i + 1;
      assert Advance(content[at..], before) == (ScanState(rows, row, value, inQuotes), i - at);
      ScanStep(content, at, before, ScanState(rows, row, value, inQuotes), i - at);
    }
    if |value| > 0 || |row| > 0 {
      row := row + [Trim(value)];
      rows := rows + [row];
    }
    ParseWellFormed(content);
  }

  // ---------------------------------------------------------------------------
  // Every row has a field, and every field is trimmed

  predicate AllTrimmed(fields: seq<string>) {
    forall j :: 0 <= j < |fields| ==> IsTrimmed(fields[j])
  }

  predicate WellFormed(rows: seq<seq<string>>) {
    forall i :: 0 <= i < |rows| ==> |rows[i]| >= 1 && AllTrimmed(rows[i])
  }

  lemma AppendTrimmed(fields: seq<string>, f: string)
    requires AllTrimmed(fields) && IsTrimmed(f)
    ensures AllTrimmed(fields + [f])
  {
    forall j | 0 <= j < |fields| + 1 ensures IsTrimmed((fields + [f])[j]) {
      if j < |fields| { assert (fields + [f])[j] == fields[j]; }
    }
  }

  lemma AppendWellFormed(rows: seq<seq<string>>, row: seq<string>)
    requires WellFormed(rows) && |row| >= 1 && AllTrimmed(row)
    ensures WellFormed(rows + [row])
  {
    forall i | 0 <= i < |rows| + 1 ensures |(rows + [row])[i]| >= 1 && AllTrimmed((rows + [row])[i]) {
      if i < |rows| { assert (rows + [row])[i] == rows[i]; }
    }
  }

  lemma EndRowWellFormed(st: ScanState)
    requires WellFormed(st.rows) && AllTrimmed(st.row)
    ensures WellFormed(EndRow(st).rows) && EndRow(st).row == []
  {
    var last := st.row + [Trim(st.value)];
    AppendTrimmed(st.row, Trim(st.value));
    AppendWellFormed(st.rows, last);
    assert EndRow(st).rows == st.rows + [last];
  }

  lemma {:induction false} ScanWellFormed(s: string, st: ScanState)
    requires WellFormed(st.rows) && AllTrimmed(st.row)
    ensures WellFormed(Scan(s, st).rows) && AllTrimmed(Scan(s, st).row)
    decreases |s|
  {
    if s != [] {
      var (st', w) := Advance(s, st);
      if IsLineBreak(s[0]) && !st.inQuotes && (|st.value| > 0 || |st.row| > 0) {
        EndRowWellFormed(st);
      }
      ScanWellFormed(s[w..], st');
    }
  }

  /** No emitted row is empty, and every emitted field is whitespace-trimmed. */
  lemma ParseWellFormed(content: string)
    ensures WellFormed(ParseCsvSpec(content))
  {
    var st := Scan(content, Start);
    ScanWellFormed(content, Start);
    if |st.value| > 0 || |st.row| > 0 {
      EndRowWellFormed(st);
    }
  }

  lemma SplitAround<T>(l: seq<T>, i: nat, rest: seq<T>)
    requires i < |l|
    ensures l + rest == l[..i] + ([l[i]] + (l[i + 1..] + rest))
  {
    assert l == l[..i] + [l[i]] + l[i + 1..];
  }

  // ---------------------------------------------------------------------------
  // One character at a time

  /** An ordinary character, or a comma or line break inside quotes, is appended to the field. */
  lemma ScanChar(c: char, rest: string, st: ScanState)
    requires c != '"' && (st.inQuotes || (c != ',' && !IsLineBreak(c)))
    ensures Scan([c] + rest, st) == Scan(rest, st.(value := st.value + [c]))
  {
    assert ([c] + rest)[1..] == rest;
  }

  /** A comma outside quotes ends the field. */
  lemma ScanComma(rest: string, st: ScanState)
    requires !st.inQuotes
    ensures Scan([','] + rest, st) == Scan(rest, st.(row := st.row + [Trim(st.value)], value := ""))
  {
    assert ([','] + rest)[1..] == rest;
  }

  /** A line break outside quotes ends the row when something is pending, and is skipped otherwise. */
  lemma ScanBreak(c: char, rest: string, st: ScanState)
    requires IsLineBreak(c) && !st.inQuotes
    ensures Scan([c] + rest, st) == Scan(rest, if |st.value| > 0 || |st.row| > 0 then EndRow(st) else st)
  {
    assert ([c] + rest)[1..] == rest;
  }

  /** A quote that is not the first of a doubled quote inside quotes toggles the quoting. */
  lemma ScanToggle(rest: string, st: ScanState)
    requires !st.inQuotes || rest == [] || rest[0] != '"'
    ensures Scan(['"'] + rest, st) == Scan(rest, st.(inQuotes := !st.inQuotes))
  {
    assert (['"'] + rest)[1..] == rest;
  }

  /** A doubled quote inside quotes is one literal quote. */
  lemma ScanDoubled(rest: string, st: ScanState)
    requires st.inQuotes
    ensures Scan("\"\"" + rest, st) == Scan(rest, st.(value := st.value + ['"']))
  {
    assert ("\"\"" + rest)[2..] == rest;
  }

  // ---------------------------------------------------------------------------
  // Lines without quotes: split at every comma

  /** A line with no quote and no line break. */
  predicate Plain(l: string) { '"' !in l && '\n' !in l && '\r' !in l }

  function TrimAll(fields: seq<string>): (r: seq<string>)
    ensures |r| == |fields| && AllTrimmed(r)
    ensures forall j :: 0 <= j < |fields| ==> r[j] == Trim(fields[j])
  {
    seq(|fields|, j requires 0 <= j < |fields| => Trim(fields[j]))
  }

  lemma TrimAllCons(x: string, xs: seq<string>)
    ensures TrimAll([x] + xs) == [Trim(x)] + TrimAll(xs)
  {
    var l, r := TrimAll([x] + xs), [Trim(x)] + TrimAll(xs);
    forall j | 0 <= j < |l| ensures l[j] == r[j] {
      if j > 0 {
        assert ([x] + xs)[j] == xs[j - 1];
      }
    }
  }

  /** The fields the reader makes of a plain line: its comma-separated pieces, trimmed. */
  function SplitFields(l: string): seq<string>
  {
    TrimAll(SplitOn(l, ','))
  }

  /** A piece of a plain line between two commas is read into the field unchanged. */
  lemma {:induction false} ScanPlainPiece(p: string, rest: string, st: ScanState)
    requires Plain(p) && ',' !in p && !st.inQuotes
    ensures Scan(p + rest, st) == Scan(rest, st.(value := st.value + p))
  {
    if p == [] {
      assert p + rest == rest;
      assert st.value + p == st.value;
    } else {
      assert p + rest == [p[0]] + (p[1..] + rest);
      ScanChar(p[0], p[1..] + rest, st);
      ScanPlainPiece(p[1..], rest, st.(value := st.value + [p[0]]));
      assert st.value + [p[0]] + p[1..] == st.value + p;
    }
  }

  /** A piece of a plain line followed by a comma becomes a field of the current row. */
  lemma ScanPlainField(head: string, after: string, rows: seq<seq<string>>, row: seq<string>)
    requires Plain(head) && ',' !in head
    ensures Scan(head + ([','] + after), ScanState(rows, row, "", false))
      == Scan(after, ScanState(rows, row + [Trim(head)], "", false))
  {
    var st := ScanState(rows, row, "", false);
    ScanPlainPiece(head, [','] + after, st);
    assert st.value + head == head;
    ScanComma(after, st.(value := head));
  }

  /** The trimmed pieces of `l` before its last comma. */
  function FieldsBefore(l: string): seq<string>
    decreases |l|
  {
    if ',' !in l then [] else
      var i := IndexOf(l, ',');
      [Trim(l[..i])] + FieldsBefore(l[i + 1..])
  }

  /** The piece of `l` after its last comma. */
  function LastPiece(l: string): string
    decreases |l|
  {
    if ',' !in l then l else LastPiece(l[IndexOf(l, ',') + 1..])
  }

  /** The fields before the last comma and the last piece, trimmed, are the line's fields. */
  lemma {:induction false} FieldsBeforeLast(l: string)
    ensures FieldsBefore(l) + [Trim(LastPiece(l))] == SplitFields(l)
    decreases |l|
  {
    if ',' !in l {
      assert SplitOn(l, ',') == [l];
      assert TrimAll([l]) == [Trim(l)];
    } else {
      var i := IndexOf(l, ',');
      var h, t := l[..i], l[i + 1..];
      assert SplitOn(l, ',') == [h] + SplitOn(t, ',');
      FieldsBeforeLast(t);
      TrimAllCons(h, SplitOn(t, ','));
      AppendAssoc([Trim(h)], FieldsBefore(t), [Trim(LastPiece(t))]);
    }
  }

  /** A line whose last piece is empty ends with a comma, so it has a field before it. */
  lemma LastPieceNonEmpty(l: string)
    requires l != ""
    ensures LastPiece(l) != "" || FieldsBefore(l) != []
  {
  }

  /** The last piece of a plain line is left as the pending field. */
  lemma ScanPlainLast(l: string, rest: string, rows: seq<seq<string>>, row: seq<string>)
    requires Plain(l) && ',' !in l
    ensures Scan(l + rest, ScanState(rows, row, "", false))
      == Scan(rest, ScanState(rows, row + FieldsBefore(l), LastPiece(l), false))
  {
    var st := ScanState(rows, row, "", false);
    ScanPlainPiece(l, rest, st);
    assert st.value + l == l;
    assert row + [] == row;
  }

  /** The pieces of a plain line before its last comma become fields of the current row,
      and the last piece is left as the pending field. */
  lemma {:induction false} ScanPlainLine(l: string, rest: string, rows: seq<seq<string>>, row: seq<string>)
    requires Plain(l)
    ensures Scan(l + rest, ScanState(rows, row, "", false))
      == Scan(rest, ScanState(rows, row + FieldsBefore(l), LastPiece(l), false))
    decreases |l|
  {
    if ',' !in l {
      ScanPlainLast(l, rest, rows, row);
    } else {
      var i := IndexOf(l, ',');
      var head, tail := l[..i], l[i + 1..];
      var row' := row + [Trim(head)];
      AppendAssoc(row, [Trim(head)], FieldsBefore(tail));
      calc {
        Scan(l + rest, ScanState(rows, row, "", false));
        { SplitAround(l, i, rest); }
        Scan(head + ([','] + (tail + rest)), ScanState(rows, row, "", false));
        { ScanPlainField(head, tail + rest, rows, row); }
        Scan(tail + rest, ScanState(rows, row', "", false));
        { ScanPlainLine(tail, rest, rows, row'); }
        Scan(rest, ScanState(rows, row + FieldsBefore(l), LastPiece(l), false));
      }
    }
  }

  /** A run of line-break characters. */
  predicate Breaks(b: string) { forall k :: 0 <= k < |b| ==> IsLineBreak(b[k]) }

  /** Line breaks met between rows, with nothing pending, produce no row:
      blank lines and the LF of a CRLF pair are dropped. */
  lemma {:induction false} ScanBlank(b: string, rest: string, rows: seq<seq<string>>)
    requires Breaks(b)
    ensures Scan(b + rest, ScanState(rows, [], "", false)) == Scan(rest, ScanState(rows, [], "", false))
  {
    if b == [] {
      assert b + rest == rest;
    } else {
      assert b + rest == [b[0]] + (b[1..] + rest);
      ScanBreak(b[0], b[1..] + rest, ScanState(rows, [], "", false));
      ScanBlank(b[1..], rest, rows);
    }
  }

  /** A run of line breaks outside quotes with a field or row pending ends the row once. */
  lemma ScanEndRow(b: string, rest: string, st: ScanState)
    requires Breaks(b) && b != [] && !st.inQuotes
    requires |st.value| > 0 || |st.row| > 0
    ensures Scan(b + rest, st) == Scan(rest, ScanState(st.rows + [st.row + [Trim(st.value)]], [], "", false))
  {
    assert b + rest == [b[0]] + (b[1..] + rest);
    ScanBreak(b[0], b[1..] + rest, st);
    ScanBlank(b[1..], rest, st.rows + [st.row + [Trim(st.value)]]);
  }

  /** The row the reader makes of each line. */
  function RowsOf(lines: seq<string>): (r: seq<seq<string>>)
    ensures |r| == |lines|
    ensures forall k :: 0 <= k < |lines| ==> r[k] == SplitFields(lines[k])
  {
    seq(|lines|, k requires 0 <= k < |lines| => SplitFields(lines[k]))
  }

  lemma RowsOfCons(lines: seq<string>)
    requires |lines| >= 1
    ensures RowsOf(lines) == [SplitFields(lines[0])] + RowsOf(lines[1..])
  {
    var r, r' := RowsOf(lines), [SplitFields(lines[0])] + RowsOf(lines[1..]);
    forall k | 0 <= k < |lines| ensures r[k] == r'[k] {
      if k > 0 { assert lines[1..][k - 1] == lines[k]; }
    }
  }

  /** The reader's variables after a plain line that starts a row. */
  function LinePending(l: string, rows: seq<seq<string>>): ScanState
  {
    ScanState(rows, FieldsBefore(l), LastPiece(l), false)
  }

  lemma ScanLine(l: string, rest: string, rows: seq<seq<string>>)
    requires Plain(l)
    ensures Scan(l + rest, ScanState(rows, [], "", false)) == Scan(rest, LinePending(l, rows))
  {
    ScanPlainLine(l, rest, rows, []);
    assert [] + FieldsBefore(l) == FieldsBefore(l);
  }

  /** A non-empty line leaves something pending, and ending the row emits its fields. */
  lemma LinePendingEnds(l: string, rows: seq<seq<string>>)
    requires l != ""
    ensures var p := LinePending(l, rows); |p.value| > 0 || |p.row| > 0
    ensures EndRow(LinePending(l, rows)) == ScanState(rows + [SplitFields(l)], [], "", false)
  {
    FieldsBeforeLast(l);
    LastPieceNonEmpty(l);
  }

  lemma ScanLastLine(l: string, rows: seq<seq<string>>)
    requires Plain(l) && l != ""
    ensures Flush(Scan(l, ScanState(rows, [], "", false))) == rows + [SplitFields(l)]
  {
    ScanLine(l, [], rows);
    assert l + [] == l;
    LinePendingEnds(l, rows);
  }

  lemma ScanNextLine(l: string, eol: string, j: string, rows: seq<seq<string>>)
    requires Plain(l) && l != ""
    requires Breaks(eol) && eol != ""
    ensures Scan(l + (eol + j), ScanState(rows, [], "", false)) == Scan(j, ScanState(rows + [SplitFields(l)], [], "", false))
  {
    ScanLine(l, eol + j, rows);
    LinePendingEnds(l, rows);
    ScanEndRow(eol, j, LinePending(l, rows));
  }

  lemma JoinCons(parts: seq<string>, sep: string)
    requires |parts| >= 2
    ensures Join(parts, sep) == parts[0] + (sep + Join(parts[1..], sep))
  {
    AppendAssoc(parts[0], sep, Join(parts[1..], sep));
  }

  /** The inductive step of `ScanPlainLines`: the first line becomes a row, and the reader
      carries on with the rest of the lines. */
  lemma PlainLinesStep(lines: seq<string>, eol: string, rows: seq<seq<string>>)
    requires |lines| >= 2 && Plain(lines[0]) && lines[0] != ""
    requires Breaks(eol) && eol != ""
    requires Flush(Scan(Join(lines[1..], eol), ScanState(rows + [SplitFields(lines[0])], [], "", false)))
               == rows + [SplitFields(lines[0])] + RowsOf(lines[1..])
    ensures Flush(Scan(Join(lines, eol), ScanState(rows, [], "", false))) == rows + RowsOf(lines)
  {
    var l, j := lines[0], Join(lines[1..], eol);
    JoinCons(lines, eol);
    ScanNextLine(l, eol, j, rows);
    RowsOfCons(lines);
    AppendAssoc(rows, [SplitFields(l)], RowsOf(lines[1..]));
  }

  /** Non-empty plain lines separated by line breaks (LF, CRLF, CR, or with blank lines
      between them) read back as one row per line, split at every comma and trimmed,
      the last line being emitted without a final line break. */
  lemma {:induction false} ScanPlainLines(lines: seq<string>, eol: string, rows: seq<seq<string>>)
    requires |lines| >= 1
    requires forall k :: 0 <= k < |lines| ==> Plain(lines[k]) && lines[k] != ""
    requires Breaks(eol) && eol != ""
    ensures Flush(Scan(Join(lines, eol), ScanState(rows, [], "", false))) == rows + RowsOf(lines)
  {
    var l := lines[0];
    if |lines| == 1 {
      RowsOfCons(lines);
      ScanLastLine(l, rows);
      assert Join(lines, eol) == l;
    } else {
      var next := rows + [SplitFields(l)];
      assert forall k :: 0 <= k < |lines| - 1 ==> lines[1..][k] == lines[k + 1];
      ScanPlainLines(lines[1..], eol, next);
      PlainLinesStep(lines, eol, rows);
    }
  }

  /** A file of non-empty plain lines parses to one row per line, each with one field
      more than the line has commas. */
  lemma ParsePlainLines(lines: seq<string>, eol: string)
    requires |lines| >= 1
    requires forall k :: 0 <= k < |lines| ==> Plain(lines[k]) && lines[k] != ""
    requires Breaks(eol) && eol != ""
    ensures var rows := ParseCsvSpec(Join(lines, eol));
      |rows| == |lines|
      && forall k :: 0 <= k < |lines| ==> rows[k] == SplitFields(lines[k]) && |rows[k]| == Count(lines[k], ',') + 1
  {
    ScanPlainLines(lines, eol, []);
    assert [] + RowsOf(lines) == RowsOf(lines);
    forall k | 0 <= k < |lines| ensures |SplitFields(lines[k])| == Count(lines[k], ',') + 1 {
      SplitCount(lines[k], ',');
    }
  }

  /** Blank input (only line breaks) yields no rows at all. */
  lemma ParseBlank(b: string)
    requires Breaks(b)
    ensures ParseCsvSpec(b) == []
  {
    ScanBlank(b, [], []);
    assert b + [] == b;
  }

  // ---------------------------------------------------------------------------
  // Quoted fields (section 2, rules 5 to 7 of RFC 4180): a writer that quotes every
  // field and doubles inner quotes, and the reader undoing it

  /** A character as written inside quotes: a quote is doubled. */
  function EscapeChar(c: char): string
  {
    if c == '"' then "\"\"" else [c]
  }

  function Escape(x: string): string
  {
    if x == [] then [] else EscapeChar(x[0]) + Escape(x[1..])
  }

  function Quote(x: string): string { "\"" + Escape(x) + "\"" }

  /** A row that the reader does not drop: more than one field, or one non-empty field. */
  predicate Keeps(fields: seq<string>) { |fields| >= 2 || (|fields| == 1 && fields[0] != "") }

  function EncodeRow(fields: seq<string>): string
    requires |fields| >= 1
  {
    if |fields| == 1 then Quote(fields[0]) else Quote(fields[0]) + "," + EncodeRow(fields[1..])
  }

  function EncodeTable(table: seq<seq<string>>): string
    requires forall i :: 0 <= i < |table| ==> Keeps(table[i])
  {
    if |table| == 0 then ""
    else
      assert Keeps(table[0]);
      if |table| == 1 then EncodeRow(table[0])
      else
        assert forall i :: 0 <= i < |table| - 1 ==> table[1..][i] == table[i + 1];
        EncodeRow(table[0]) + "\n" + EncodeTable(table[1..])
  }

  lemma EscapeStep(x: string, tail: string)
    requires x != []
    ensures Escape(x) + tail == EscapeChar(x[0]) + (Escape(x[1..]) + tail)
  {
    AppendAssoc(EscapeChar(x[0]), Escape(x[1..]), tail);
  }

  /** Inside quotes, a written character is read back as itself. */
  lemma ScanEscapedChar(c: char, after: string, st: ScanState)
    requires st.inQuotes
    ensures Scan(EscapeChar(c) + after, st) == Scan(after, st.(value := st.value + [c]))
  {
    if c == '"' {
      ScanDoubled(after, st);
    } else {
      ScanChar(c, after, st);
    }
  }

  /** Inside quotes, a doubled quote yields one literal quote and everything else (commas,
      line breaks) is field content; the closing quote is dropped and ends the quoting. */
  lemma {:induction false} ScanEscaped(x: string, rest: string, st: ScanState)
    requires st.inQuotes
    requires rest == [] || rest[0] != '"'
    ensures Scan(Escape(x) + ("\"" + rest), st) == Scan(rest, st.(value := st.value + x, inQuotes := false))
  {
    if x == [] {
      assert Escape(x) + ("\"" + rest) == ['"'] + rest;
      ScanToggle(rest, st);
      assert st.value + x == st.value;
    } else {
      var st' := st.(value := st.value + [x[0]]);
      EscapeStep(x, "\"" + rest);
      ScanEscapedChar(x[0], Escape(x[1..]) + ("\"" + rest), st);
      ScanEscaped(x[1..], rest, st');
      AppendCons(st.value, x);
    }
  }

  lemma AppendCons<T>(a: seq<T>, x: seq<T>)
    requires x != []
    ensures a + [x[0]] + x[1..] == a + x
  {
    assert x == [x[0]] + x[1..];
    AppendAssoc(a, [x[0]], x[1..]);
  }

  /** A quoted field is read back as its content, whatever it contains. */
  lemma ScanQuoted(x: string, rest: string, st: ScanState)
    requires !st.inQuotes
    requires rest == [] || rest[0] != '"'
    ensures Scan(Quote(x) + rest, st) == Scan(rest, st.(value := st.value + x))
  {
    assert Quote(x) + rest == ['"'] + (Escape(x) + ("\"" + rest));
    ScanToggle(Escape(x) + ("\"" + rest), st);
    ScanEscaped(x, rest, st.(inQuotes := true));
  }

  /** A quoted field followed by a comma becomes a field of the current row. */
  lemma ScanQuotedField(x: string, after: string, rows: seq<seq<string>>, row: seq<string>)
    ensures Scan(Quote(x) + ([','] + after), ScanState(rows, row, "", false))
      == Scan(after, ScanState(rows, row + [Trim(x)], "", false))
  {
    var st := ScanState(rows, row, "", false);
    ScanQuoted(x, [','] + after, st);
    assert st.value + x == x;
    ScanComma(after, st.(value := x));
  }

  /** The trimmed fields of a row but its last. */
  function InitFields(fields: seq<string>): seq<string>
    requires |fields| >= 1
  {
    TrimAll(fields[..|fields| - 1])
  }

  lemma InitFieldsCons(fields: seq<string>)
    requires |fields| >= 2
    ensures InitFields(fields) == [Trim(fields[0])] + InitFields(fields[1..])
  {
    assert fields[..|fields| - 1] == [fields[0]] + fields[1..][..|fields| - 2];
    TrimAllCons(fields[0], fields[1..][..|fields| - 2]);
  }

  lemma EncodeRowStep(fields: seq<string>, rest: string)
    requires |fields| >= 2
    ensures EncodeRow(fields) + rest == Quote(fields[0]) + ([','] + (EncodeRow(fields[1..]) + rest))
  {
    var q, e := Quote(fields[0]), EncodeRow(fields[1..]);
    assert EncodeRow(fields) == q + [','] + e;
    AppendAssoc(q + [','], e, rest);
    AppendAssoc(q, [','], e + rest);
  }

  /** Every field of an encoded row but the last becomes a field of the current row;
      the last is left as the pending field. */
  lemma {:induction false} ScanEncodedRow(fields: seq<string>, rest: string, rows: seq<seq<string>>, row: seq<string>)
    requires |fields| >= 1
    requires rest == [] || rest[0] != '"'
    ensures Scan(EncodeRow(fields) + rest, ScanState(rows, row, "", false))
      == Scan(rest, ScanState(rows, row + InitFields(fields), fields[|fields| - 1], false))
  {
    if |fields| == 1 {
      ScanEncodedLast(fields, rest, rows, row);
    } else {
      var x := fields[0];
      var row' := row + [Trim(x)];
      InitFieldsCons(fields);
      AppendAssoc(row, [Trim(x)], InitFields(fields[1..]));
      calc {
        Scan(EncodeRow(fields) + rest, ScanState(rows, row, "", false));
        { EncodeRowStep(fields, rest); }
        Scan(Quote(x) + ([','] + (EncodeRow(fields[1..]) + rest)), ScanState(rows, row, "", false));
        { ScanQuotedField(x, EncodeRow(fields[1..]) + rest, rows, row); }
        Scan(EncodeRow(fields[1..]) + rest, ScanState(rows, row', "", false));
        { ScanEncodedRow(fields[1..], rest, rows, row'); }
        Scan(rest, ScanState(rows, row + InitFields(fields), fields[|fields| - 1], false));
      }
    }
  }

  lemma ScanEncodedLast(fields: seq<string>, rest: string, rows: seq<seq<string>>, row: seq<string>)
    requires |fields| == 1
    requires rest == [] || rest[0] != '"'
    ensures Scan(EncodeRow(fields) + rest, ScanState(rows, row, "", false))
      == Scan(rest, ScanState(rows, row + InitFields(fields), fields[0], false))
  {
    var st := ScanState(rows, row, "", false);
    ScanQuoted(fields[0], rest, st);
    assert st.value + fields[0] == fields[0];
    assert row + InitFields(fields) == row by {
      assert fields[..0] == [];
    }
  }

  /** The table the reader gives back for an encoded table: every field trimmed. */
  function TrimTable(table: seq<seq<string>>): (r: seq<seq<string>>)
    ensures |r| == |table|
    ensures forall i :: 0 <= i < |table| ==> r[i] == TrimAll(table[i])
  {
    seq(|table|, i requires 0 <= i < |table| => TrimAll(table[i]))
  }

  lemma TrimTableCons(table: seq<seq<string>>)
    requires |table| >= 1
    ensures TrimTable(table) == [TrimAll(table[0])] + TrimTable(table[1..])
  {
    var r, r' := TrimTable(table), [TrimAll(table[0])] + TrimTable(table[1..]);
    forall k | 0 <= k < |table| ensures r[k] == r'[k] {
      if k > 0 { assert table[1..][k - 1] == table[k]; }
    }
  }

  /** The reader's variables after an encoded row that starts a row. */
  function RowPending(fields: seq<string>, rows: seq<seq<string>>): ScanState
    requires |fields| >= 1
  {
    ScanState(rows, InitFields(fields), fields[|fields| - 1], false)
  }

  lemma RowPendingEnds(fields: seq<string>, rows: seq<seq<string>>)
    requires Keeps(fields)
    ensures var p := RowPending(fields, rows); |p.value| > 0 || |p.row| > 0
    ensures EndRow(RowPending(fields, rows)) == ScanState(rows + [TrimAll(fields)], [], "", false)
  {
    TrimAllLast(fields);
  }

  lemma TrimAllLast(fields: seq<string>)
    requires |fields| >= 1
    ensures InitFields(fields) + [Trim(fields[|fields| - 1])] == TrimAll(fields)
  {
    var n := |fields| - 1;
    calc {
      InitFields(fields) + [Trim(fields[n])];
      == { TrimAllSnoc(fields[..n], fields[n]); }
      TrimAll(fields[..n] + [fields[n]]);
      == { assert fields[..n] + [fields[n]] == fields; }
      TrimAll(fields);
    }
  }

  lemma TrimAllSnoc(xs: seq<string>, x: string)
    ensures TrimAll(xs + [x]) == TrimAll(xs) + [Trim(x)]
  {
    var a, b := TrimAll(xs + [x]), TrimAll(xs) + [Trim(x)];
    forall j | 0 <= j < |xs| + 1 ensures a[j] == b[j] {
      if j < |xs| { assert (xs + [x])[j] == xs[j]; }
    }
  }

  lemma ScanRow(fields: seq<string>, rest: string, rows: seq<seq<string>>)
    requires |fields| >= 1
    requires rest == [] || rest[0] != '"'
    ensures Scan(EncodeRow(fields) + rest, ScanState(rows, [], "", false)) == Scan(rest, RowPending(fields, rows))
  {
    ScanEncodedRow(fields, rest, rows, []);
    assert [] + InitFields(fields) == InitFields(fields);
  }

  lemma ScanLastRow(fields: seq<string>, rows: seq<seq<string>>)
    requires Keeps(fields)
    ensures Flush(Scan(EncodeRow(fields), ScanState(rows, [], "", false))) == rows + [TrimAll(fields)]
  {
    ScanRow(fields, [], rows);
    assert EncodeRow(fields) + [] == EncodeRow(fields);
    RowPendingEnds(fields, rows);
  }

  lemma ScanNextRow(fields: seq<string>, j: string, rows: seq<seq<string>>)
    requires Keeps(fields)
    ensures Scan(EncodeRow(fields) + ("\n" + j), ScanState(rows, [], "", false))
      == Scan(j, ScanState(rows + [TrimAll(fields)], [], "", false))
  {
    ScanRow(fields, "\n" + j, rows);
    RowPendingEnds(fields, rows);
    ScanEndRow("\n", j, RowPending(fields, rows));
  }

  lemma {:induction false} ScanEncodedTable(table: seq<seq<string>>, rows: seq<seq<string>>)
    requires forall i :: 0 <= i < |table| ==> Keeps(table[i])
    ensures Flush(Scan(EncodeTable(table), ScanState(rows, [], "", false))) == rows + TrimTable(table)
  {
    if |table| == 0 {
      assert rows + TrimTable(table) == rows;
    } else {
      var fs := table[0];
      TrimTableCons(table);
      if |table| == 1 {
        ScanLastRow(fs, rows);
        assert TrimTable(table) == [TrimAll(fs)];
      } else {
        var j := EncodeTable(table[1..]);
        EncodeTableStep(table);
        ScanNextRow(fs, j, rows);
        ScanEncodedTable(table[1..], rows + [TrimAll(fs)]);
        AppendAssoc(rows, [TrimAll(fs)], TrimTable(table[1..]));
      }
    }
  }

  lemma EncodeTableStep(table: seq<seq<string>>)
    requires |table| >= 2
    requires forall i :: 0 <= i < |table| ==> Keeps(table[i])
    ensures EncodeTable(table) == EncodeRow(table[0]) + ("\n" + EncodeTable(table[1..]))
  {
    AppendAssoc(EncodeRow(table[0]), "\n", EncodeTable(table[1..]));
  }

  /** Round trip: a table written with every field quoted (inner quotes doubled) reads
      back as the same table with each field trimmed, commas and line breaks inside
      fields included. */
  lemma ParseEncodedTable(table: seq<seq<string>>)
    requires forall i :: 0 <= i < |table| ==> Keeps(table[i])
    ensures ParseCsvSpec(EncodeTable(table)) == TrimTable(table)
  {
    ScanEncodedTable(table, []);
    assert [] + TrimTable(table) == TrimTable(table);
  }

  // ---------------------------------------------------------------------------
  // normalizeMode

  datatype Mode = Quick | Tournament

  /** `normalizeMode(tipo)`: quick when the lower-cased text mentions "quick",
      "rápida" or "rapida", a tournament otherwise. */
  function NormalizeMode(tipo: string): (m: Mode)
    ensures m == Quick <==>
      exists i :: OccursAt(ToLower(tipo), "quick", i) || OccursAt(ToLower(tipo), "rápida", i) || OccursAt(ToLower(tipo), "rapida", i)
  {
    var lower := ToLower(tipo);
    ContainsAt(lower, "quick");
    ContainsAt(lower, "rápida");
    ContainsAt(lower, "rapida");
    if Contains(lower, "quick") || Contains(lower, "rápida") || Contains(lower, "rapida") then Quick else Tournament
  }

  // ---------------------------------------------------------------------------
  // Header columns

  /** `headers.findIndex(...)`: the first index at or after `from` whose trimmed header is `name`, or -1. */
  function FindHeader(headers: seq<string>, name: string, from: nat): (i: int)
    ensures i == -1 || (from <= i < |headers| && Trim(headers[i]) == name)
    ensures forall k :: from <= k < |headers| && (i == -1 || k < i) ==> Trim(headers[k]) != name
    decreases |headers| - from
  {
    if from >= |headers| then -1
    else if Trim(headers[from]) == name then from
    else FindHeader(headers, name, from + 1)
  }

  /** `headers.lastIndexOf(name)`: the last index holding exactly `name`, or -1. */
  function LastHeader(headers: seq<string>, name: string): (i: int)
    ensures i == -1 || (0 <= i < |headers| && headers[i] == name)
    ensures forall k :: 0 <= k < |headers| && k > i ==> headers[k] != name
  {
    if |headers| == 0 then -1
    else if headers[|headers| - 1] == name then |headers| - 1
    else LastHeader(headers[..|headers| - 1], name)
  }

  datatype Columns = Columns(date: int, kind: int, teamA: int, teamB: int,
                             scoreA: int, scoreB: int, c1: int, c2: int, c3: int)

  /** The script's column lookup: team names from the first "Time 1"/"Time 2" after the first
      column (else anywhere), scores from their last occurrence. */
  function ResolveColumns(headers: seq<string>): Columns
  {
    var t1 := FindHeader(headers, "Time 1", 1);
    var t2 := FindHeader(headers, "Time 2", 1);
    Columns(
      FindHeader(headers, "Data", 0),
      FindHeader(headers, "Tipo de Partida", 0),
      if t1 != -1 then t1 else FindHeader(headers, "Time 1", 0),
      if t2 != -1 then t2 else FindHeader(headers, "Time 2", 0),
      LastHeader(headers, "Time 1"),
      LastHeader(headers, "Time 2"),
      FindHeader(headers, "Cestas (1)", 0),
      FindHeader(headers, "Cestas (2)", 0),
      FindHeader(headers, "Cestas (3)", 0))
  }

  /** `r[i]`, with a missing column read as the empty string (`r[i] || ''`). */
  function Cell(r: seq<string>, i: int): string
  {
    if 0 <= i < |r| then r[i] else ""
  }

  // ---------------------------------------------------------------------------
  // The import loop

  /** A team as the script knows it: one fetched at start or one it inserted. */
  datatype Team = Team(name: string)

  /** The match row the script inserts, with the scores of its result row. */
  datatype ImportedMatch = ImportedMatch(
    date: string, mode: Mode, teamA: Team, teamB: Team, teamAName: string, teamBName: string,
    quarters: nat, durations: seq<nat>,
    scoreA: Option<int>, scoreB: Option<int>, c1: Option<int>, c2: Option<int>, c3: Option<int>)

  /** `${n}` for the result of `Number(...)`; NaN prints as "NaN". */
  function ShowNumber(n: Option<int>): string
  {
    if n.Some? then IntToString(n.value) else "NaN"
  }

  /** The dedupe key: date, both names, both scores and the three basket counts joined by '|'. */
  function Key(date: string, a: string, b: string, sA: Option<int>, sB: Option<int>,
               c1: Option<int>, c2: Option<int>, c3: Option<int>): string
  {
    date + "|" + a + "|" + b + "|" + ShowNumber(sA) + "|" + ShowNumber(sB)
    + "|" + ShowNumber(c1) + "|" + ShowNumber(c2) + "|" + ShowNumber(c3)
  }

  function KeyOf(m: ImportedMatch): string
  {
    Key(m.date, m.teamAName, m.teamBName, m.scoreA, m.scoreB, m.c1, m.c2, m.c3)
  }

  /** The loop's variables: the dedupe set, the team map keyed by lower-cased name,
      the teams it inserted and the matches it created. */
  datatype ImportState = ImportState(seen: set<string>, teamMap: map<string, Team>,
                                     insertedTeams: seq<string>, created: seq<ImportedMatch>)

  /** The row's key, or None when the row is skipped for an empty date or team name. */
  function RowKey(r: seq<string>, cols: Columns): Option<string>
  {
    var date := Trim(Cell(r, cols.date));
    var a := Trim(Cell(r, cols.teamA));
    var b := Trim(Cell(r, cols.teamB));
    if date == "" || a == "" || b == "" then None
    else Some(Key(date, a, b, NumberOf(Cell(r, cols.scoreA)), NumberOf(Cell(r, cols.scoreB)),
                  NumberOf(Cell(r, cols.c1)), NumberOf(Cell(r, cols.c2)), NumberOf(Cell(r, cols.c3))))
  }

  /** The team map after looking `name` up, inserting it when missing. */
  function WithTeam(st: ImportState, name: string): (r: ImportState)
    ensures ToLower(name) in r.teamMap && st.teamMap.Keys <= r.teamMap.Keys
    ensures r.seen == st.seen && r.created == st.created
  {
    if ToLower(name) in st.teamMap then st
    else st.(teamMap := st.teamMap[ToLower(name) := Team(name)], insertedTeams := st.insertedTeams + [name])
  }

  /** The match the script inserts for row `r`, with the teams the map holds for its names. */
  function RowMatch(r: seq<string>, cols: Columns, teamMap: map<string, Team>): (m: ImportedMatch)
    requires ToLower(Trim(Cell(r, cols.teamA))) in teamMap && ToLower(Trim(Cell(r, cols.teamB))) in teamMap
  {
    var a, b := Trim(Cell(r, cols.teamA)), Trim(Cell(r, cols.teamB));
    var mode := NormalizeMode(Cell(r, cols.kind));
    ImportedMatch(Trim(Cell(r, cols.date)), mode, teamMap[ToLower(a)], teamMap[ToLower(b)], a, b,
                  if mode == Quick then 1 else 4,
                  if mode == Quick then [420] else [600, 600, 600, 600],
                  NumberOf(Cell(r, cols.scoreA)), NumberOf(Cell(r, cols.scoreB)),
                  NumberOf(Cell(r, cols.c1)), NumberOf(Cell(r, cols.c2)), NumberOf(Cell(r, cols.c3)))
  }

  /** One pass of the loop body over row `r`: skipped for an empty date or team name or
      a key already seen; otherwise the key is recorded, missing teams are inserted and
      the match is created. */
  function ImportRow(st: ImportState, r: seq<string>, cols: Columns): ImportState
  {
    var key := RowKey(r, cols);
    if key.None? || key.value in st.seen then st
    else
      var st1 := WithTeam(st.(seen := st.seen + {key.value}), Trim(Cell(r, cols.teamA)));
      var st2 := WithTeam(st1, Trim(Cell(r, cols.teamB)));
      st2.(created := st2.created + [RowMatch(r, cols, st2.teamMap)])
  }

  /** The loop state after the first `|rows|` rows. */
  function ImportAll(rows: seq<seq<string>>, cols: Columns, teams: map<string, Team>): ImportState
  {
    if rows == [] then ImportState({}, teams, [], [])
    else ImportRow(ImportAll(rows[..|rows| - 1], cols, teams), rows[|rows| - 1], cols)
  }

  /** The body of the import loop for row `r`. */
  method ImportOne(r: seq<string>, cols: Columns, dedupeSet: set<string>, teamMap: map<string, Team>,
                   insertedTeams: seq<string>, created: seq<ImportedMatch>)
    returns (dedupeSet': set<string>, teamMap': map<string, Team>, insertedTeams': seq<string>, created': seq<ImportedMatch>)
    ensures ImportState(dedupeSet', teamMap', insertedTeams', created')
      == ImportRow(ImportState(dedupeSet, teamMap, insertedTeams, created), r, cols)
  {
    dedupeSet', teamMap', insertedTeams', created' := dedupeSet, teamMap, insertedTeams, created;
    var dateIso := Trim(Cell(r, cols.date));
    if dateIso == "" {
      return;
    }
    var teamAName := Trim(Cell(r, cols.teamA));
    var teamBName := Trim(Cell(r, cols.teamB));
    if teamAName == "" || teamBName == "" {
      return;
    }
    var scoreA, scoreB := NumberOf(Cell(r, cols.scoreA)), NumberOf(Cell(r, cols.scoreB));
    var c1, c2, c3 := NumberOf(Cell(r, cols.c1)), NumberOf(Cell(r, cols.c2)), NumberOf(Cell(r, cols.c3));
    var dedupeKey := Key(dateIso, teamAName, teamBName, scoreA, scoreB, c1, c2, c3);
    if dedupeKey in dedupeSet {
      return;
    }
    assert RowKey(r, cols) == Some(dedupeKey);
    dedupeSet' := dedupeSet + {dedupeKey};
    ghost var st0 := ImportState(dedupeSet', teamMap', insertedTeams', created');
    if ToLower(teamAName) !in teamMap' {
      teamMap' := teamMap'[ToLower(teamAName) := Team(teamAName)];
      insertedTeams' := insertedTeams' + [teamAName];
    }
    ghost var st1 := ImportState(dedupeSet', teamMap', insertedTeams', created');
    assert st1 == WithTeam(st0, teamAName);
    if ToLower(teamBName) !in teamMap' {
      teamMap' := teamMap'[ToLower(teamBName) := Team(teamBName)];
      insertedTeams' := insertedTeams' + [teamBName];
    }
    assert ImportState(dedupeSet', teamMap', insertedTeams', created') == WithTeam(st1, teamBName);
    // the match payload, with both teams looked up in the map
    var imported := RowMatch(r, cols, teamMap');
    created' := created' + [imported];
  }

  /** The import loop of the script over the data rows, with the team map fetched at start. */
  method ImportRows(rows: seq<seq<string>>, cols: Columns, teams: map<string, Team>)
    returns (created: seq<ImportedMatch>, insertedTeams: seq<string>)
    ensures created == ImportAll(rows, cols, teams).created
    ensures insertedTeams == ImportAll(rows, cols, teams).insertedTeams
    ensures forall i, j :: 0 <= i < j < |created| ==> KeyOf(created[i]) != KeyOf(created[j])
    ensures forall j :: 0 <= j < |created| ==> ValidImport(created[j])
  {
    var dedupeSet: set<string> := {};
    var teamMap := teams;
    created := [];
    insertedTeams := [];
    var i := 0;
    while i < |rows|
      invariant 0 <= i <= |rows|
      invariant ImportAll(rows[..i], cols, teams) == ImportState(dedupeSet, teamMap, insertedTeams, created)
    {
      assert rows[..i + 1][..i] == rows[..i];
      dedupeSet, teamMap, insertedTeams, created := ImportOne(rows[i], cols, dedupeSet, teamMap, insertedTeams, created);
      i := i + 1;
    }
    assert rows[..|rows|] == rows;
    ImportDedupes(rows, cols, teams);
  }

  // ---------------------------------------------------------------------------
  // What the import loop guarantees

  /** The shape of every created match: a non-empty date and team names, and the quarter
      layout of its mode (one quarter of 420 s, or four of 600 s). */
  predicate ValidImport(m: ImportedMatch)
  {
    m.date != "" && m.teamAName != "" && m.teamBName != ""
    && (m.mode == Quick ==> m.quarters == 1 && m.durations == [420])
    && (m.mode == Tournament ==> m.quarters == 4 && m.durations == [600, 600, 600, 600])
  }

  /** The invariant of the loop: the dedupe set holds exactly the keys of the created
      matches, which are pairwise distinct and valid. */
  ghost predicate ImportInvariant(st: ImportState)
  {
    && (forall k :: k in st.seen <==> exists j :: 0 <= j < |st.created| && KeyOf(st.created[j]) == k)
    && (forall i, j :: 0 <= i < j < |st.created| ==> KeyOf(st.created[i]) != KeyOf(st.created[j]))
    && (forall j :: 0 <= j < |st.created| ==> ValidImport(st.created[j]))
  }

  /** What a row that is not skipped adds: its key, and one match carrying that key. */
  lemma ImportRowAdds(st: ImportState, r: seq<string>, cols: Columns)
    requires RowKey(r, cols).Some? && RowKey(r, cols).value !in st.seen
    ensures var st', key := ImportRow(st, r, cols), RowKey(r, cols).value;
      && st'.seen == st.seen + {key}
      && |st'.created| == |st.created| + 1
      && st'.created[..|st.created|] == st.created
      && KeyOf(st'.created[|st.created|]) == key
      && ValidImport(st'.created[|st.created|])
  {
    var st0 := st.(seen := st.seen + {RowKey(r, cols).value});
    var st2 := WithTeam(WithTeam(st0, Trim(Cell(r, cols.teamA))), Trim(Cell(r, cols.teamB)));
    var m := RowMatch(r, cols, st2.teamMap);
    RowMatchKey(r, cols, st2.teamMap);
    assert ImportRow(st, r, cols) == st2.(created := st.created + [m]);
    assert (st.created + [m])[..|st.created|] == st.created;
  }

  /** The match of a row carries the row's key and the layout of its mode. */
  lemma RowMatchKey(r: seq<string>, cols: Columns, teamMap: map<string, Team>)
    requires ToLower(Trim(Cell(r, cols.teamA))) in teamMap && ToLower(Trim(Cell(r, cols.teamB))) in teamMap
    requires RowKey(r, cols).Some?
    ensures KeyOf(RowMatch(r, cols, teamMap)) == RowKey(r, cols).value
    ensures ValidImport(RowMatch(r, cols, teamMap))
    ensures UsesMap(RowMatch(r, cols, teamMap), teamMap)
  {
  }

  /** Appending an item whose key is new keeps the set of seen keys equal to the keys of the
      items. Stated for any key function, so that the proof does not unfold the key. */
  lemma AddSeenKeeps<T>(seen: set<string>, items: seq<T>, seen': set<string>, items': seq<T>,
                        key: string, keyOf: T -> string)
    requires forall k :: k in seen <==> exists j :: 0 <= j < |items| && keyOf(items[j]) == k
    requires seen' == seen + {key} && |items'| == |items| + 1
    requires items'[..|items|] == items && keyOf(items'[|items|]) == key
    ensures forall k :: k in seen' <==> exists j :: 0 <= j < |items'| && keyOf(items'[j]) == k
  {
    forall k ensures k in seen' <==> exists j :: 0 <= j < |items'| && keyOf(items'[j]) == k {
      if k in seen {
        var j :| 0 <= j < |items| && keyOf(items[j]) == k;
        assert items'[j] == items[j];
      }
      if exists j :: 0 <= j < |items'| && keyOf(items'[j]) == k {
        var j :| 0 <= j < |items'| && keyOf(items'[j]) == k;
        if j < |items| { assert items'[j] == items[j]; }
      }
    }
  }

  /** Appending an item whose key is not seen keeps the items' keys pairwise distinct. */
  lemma AddDistinctKeeps<T>(seen: set<string>, items: seq<T>, items': seq<T>, key: string, keyOf: T -> string)
    requires forall k :: k in seen <==> exists j :: 0 <= j < |items| && keyOf(items[j]) == k
    requires forall i, j :: 0 <= i < j < |items| ==> keyOf(items[i]) != keyOf(items[j])
    requires key !in seen && |items'| == |items| + 1
    requires items'[..|items|] == items && keyOf(items'[|items|]) == key
    ensures forall i, j :: 0 <= i < j < |items'| ==> keyOf(items'[i]) != keyOf(items'[j])
  {
    forall i, j | 0 <= i < j < |items'| ensures keyOf(items'[i]) != keyOf(items'[j]) {
      assert items'[i] == items[i];
      if j == |items| {
        assert keyOf(items[i]) in seen;
      } else {
        assert items'[j] == items[j];
      }
    }
  }

  lemma AddValidKeeps(st: ImportState, st': ImportState)
    requires ImportInvariant(st)
    requires |st'.created| == |st.created| + 1
    requires st'.created[..|st.created|] == st.created && ValidImport(st'.created[|st.created|])
    ensures forall j :: 0 <= j < |st'.created| ==> ValidImport(st'.created[j])
  {
    forall j | 0 <= j < |st'.created| ensures ValidImport(st'.created[j]) {
      if j < |st.created| { assert st'.created[j] == st.created[j]; }
    }
  }

  lemma ImportRowKeeps(st: ImportState, r: seq<string>, cols: Columns)
    requires ImportInvariant(st)
    ensures ImportInvariant(ImportRow(st, r, cols))
    ensures RowKey(r, cols).Some? ==> RowKey(r, cols).value in ImportRow(st, r, cols).seen
    ensures st.seen <= ImportRow(st, r, cols).seen
  {
    if RowKey(r, cols).Some? && RowKey(r, cols).value !in st.seen {
      ImportRowAddKeeps(st, r, cols);
    } else {
      assert ImportRow(st, r, cols) == st;
    }
  }

  lemma ImportRowAddKeeps(st: ImportState, r: seq<string>, cols: Columns)
    requires ImportInvariant(st)
    requires RowKey(r, cols).Some? && RowKey(r, cols).value !in st.seen
    ensures ImportInvariant(ImportRow(st, r, cols))
    ensures RowKey(r, cols).value in ImportRow(st, r, cols).seen
  {
    var st', key := ImportRow(st, r, cols), RowKey(r, cols).value;
    ImportRowAdds(st, r, cols);
    AddSeenKeeps(st.seen, st.created, st'.seen, st'.created, key, KeyOf);
    AddDistinctKeeps(st.seen, st.created, st'.created, key, KeyOf);
    AddValidKeeps(st, st');
  }

  lemma {:induction false} ImportAllKeeps(rows: seq<seq<string>>, cols: Columns, teams: map<string, Team>)
    ensures ImportInvariant(ImportAll(rows, cols, teams))
    ensures forall k :: 0 <= k < |rows| && RowKey(rows[k], cols).Some? ==>
      RowKey(rows[k], cols).value in ImportAll(rows, cols, teams).seen
  {
    if rows != [] {
      var init := rows[..|rows| - 1];
      ImportAllKeeps(init, cols, teams);
      ImportRowKeeps(ImportAll(init, cols, teams), rows[|rows| - 1], cols);
      forall k | 0 <= k < |rows| && RowKey(rows[k], cols).Some?
        ensures RowKey(rows[k], cols).value in ImportAll(rows, cols, teams).seen
      {
        if k < |rows| - 1 { assert rows[k] == init[k]; }
      }
    }
  }

  /** Each key produces at most one match, every row that is not skipped for an empty
      date or team name is represented by the match of its key, and every created match
      has the quarter layout of its mode. */
  lemma ImportDedupes(rows: seq<seq<string>>, cols: Columns, teams: map<string, Team>)
    ensures var created := ImportAll(rows, cols, teams).created;
      && (forall i, j :: 0 <= i < j < |created| ==> KeyOf(created[i]) != KeyOf(created[j]))
      && (forall j :: 0 <= j < |created| ==> ValidImport(created[j]))
      && (forall k :: 0 <= k < |rows| && RowKey(rows[k], cols).Some? ==>
            exists j :: 0 <= j < |created| && KeyOf(created[j]) == RowKey(rows[k], cols).value)
  {
    ImportAllKeeps(rows, cols, teams);
  }

  /** A row with an empty date or team name, or whose key was already seen, changes nothing;
      any other row adds exactly its key to the dedupe set and one match to the result. */
  lemma ImportRowSkips(st: ImportState, r: seq<string>, cols: Columns)
    ensures Trim(Cell(r, cols.date)) == "" || Trim(Cell(r, cols.teamA)) == "" || Trim(Cell(r, cols.teamB)) == ""
      ==> ImportRow(st, r, cols) == st
    ensures RowKey(r, cols).Some? && RowKey(r, cols).value in st.seen ==> ImportRow(st, r, cols) == st
    ensures RowKey(r, cols).Some? && RowKey(r, cols).value !in st.seen ==>
      (ImportRow(st, r, cols).seen == st.seen + {RowKey(r, cols).value}
       && |ImportRow(st, r, cols).created| == |st.created| + 1)
  {
    if RowKey(r, cols).Some? && RowKey(r, cols).value !in st.seen {
      ImportRowAdds(st, r, cols);
    }
  }

  /** The team bookkeeping of the loop: fetched teams are kept, every inserted name is new
      (case-insensitively, also among themselves), and each created match holds the team the
      map has for its lower-cased names. */
  ghost predicate TeamsConsistent(st: ImportState, teams: map<string, Team>)
  {
    && (forall k :: k in teams ==> k in st.teamMap && st.teamMap[k] == teams[k])
    && (forall i :: 0 <= i < |st.insertedTeams| ==>
          ToLower(st.insertedTeams[i]) in st.teamMap && ToLower(st.insertedTeams[i]) !in teams)
    && (forall i, j :: 0 <= i < j < |st.insertedTeams| ==> ToLower(st.insertedTeams[i]) != ToLower(st.insertedTeams[j]))
    && (forall j :: 0 <= j < |st.created| ==> UsesMap(st.created[j], st.teamMap))
  }

  predicate UsesMap(m: ImportedMatch, teamMap: map<string, Team>)
  {
    && ToLower(m.teamAName) in teamMap && teamMap[ToLower(m.teamAName)] == m.teamA
    && ToLower(m.teamBName) in teamMap && teamMap[ToLower(m.teamBName)] == m.teamB
  }

  /** Looking a name up never changes a team the map already holds. */
  lemma WithTeamKeeps(st: ImportState, name: string, teams: map<string, Team>)
    requires TeamsConsistent(st, teams)
    ensures TeamsConsistent(WithTeam(st, name), teams)
    ensures ToLower(name) in WithTeam(st, name).teamMap
    ensures forall k :: k in st.teamMap ==> k in WithTeam(st, name).teamMap && WithTeam(st, name).teamMap[k] == st.teamMap[k]
  {
    var st' := WithTeam(st, name);
    if ToLower(name) !in st.teamMap {
      forall i | 0 <= i < |st'.insertedTeams|
        ensures ToLower(st'.insertedTeams[i]) in st'.teamMap && ToLower(st'.insertedTeams[i]) !in teams
      {
        if i < |st.insertedTeams| { assert st'.insertedTeams[i] == st.insertedTeams[i]; }
      }
      forall i, j | 0 <= i < j < |st'.insertedTeams|
        ensures ToLower(st'.insertedTeams[i]) != ToLower(st'.insertedTeams[j])
      {
        assert st'.insertedTeams[i] == st.insertedTeams[i];
        if j < |st.insertedTeams| { assert st'.insertedTeams[j] == st.insertedTeams[j]; }
      }
      forall j | 0 <= j < |st'.created| ensures UsesMap(st'.created[j], st'.teamMap) {
        assert UsesMap(st.created[j], st.teamMap);
      }
    }
  }

  lemma AddMatchTeams(st: ImportState, m: ImportedMatch, teams: map<string, Team>)
    requires TeamsConsistent(st, teams) && UsesMap(m, st.teamMap)
    ensures TeamsConsistent(st.(created := st.created + [m]), teams)
  {
    var st' := st.(created := st.created + [m]);
    forall j | 0 <= j < |st'.created| ensures UsesMap(st'.created[j], st'.teamMap) {
      if j < |st.created| { assert st'.created[j] == st.created[j]; }
    }
  }

  lemma ImportRowTeams(st: ImportState, r: seq<string>, cols: Columns, teams: map<string, Team>)
    requires TeamsConsistent(st, teams)
    ensures TeamsConsistent(ImportRow(st, r, cols), teams)
  {
    var key := RowKey(r, cols);
    if key.Some? && key.value !in st.seen {
      var a, b := Trim(Cell(r, cols.teamA)), Trim(Cell(r, cols.teamB));
      var st0 := st.(seen := st.seen + {key.value});
      var st1 := WithTeam(st0, a);
      var st2 := WithTeam(st1, b);
      WithTeamKeeps(st0, a, teams);
      WithTeamKeeps(st1, b, teams);
      var m := RowMatch(r, cols, st2.teamMap);
      RowMatchKey(r, cols, st2.teamMap);
      assert ImportRow(st, r, cols) == st2.(created := st2.created + [m]);
      AddMatchTeams(st2, m, teams);
    }
  }

  lemma {:induction false} ImportAllTeams(rows: seq<seq<string>>, cols: Columns, teams: map<string, Team>)
    ensures TeamsConsistent(ImportAll(rows, cols, teams), teams)
  {
    if rows != [] {
      ImportAllTeams(rows[..|rows| - 1], cols, teams);
      ImportRowTeams(ImportAll(rows[..|rows| - 1], cols, teams), rows[|rows| - 1], cols, teams);
    }
  }

  /** The script never inserts a team whose lower-cased name the map already has: inserted
      names are new to the fetched teams and pairwise distinct ignoring case, and each
      created match refers to the team the map holds for its names. */
  lemma ImportTeams(rows: seq<seq<string>>, cols: Columns, teams: map<string, Team>)
    ensures var st := ImportAll(rows, cols, teams);
      && (forall i :: 0 <= i < |st.insertedTeams| ==> ToLower(st.insertedTeams[i]) !in teams)
      && (forall i, j :: 0 <= i < j < |st.insertedTeams| ==> ToLower(st.insertedTeams[i]) != ToLower(st.insertedTeams[j]))
      && (forall j :: 0 <= j < |st.created| ==> UsesMap(st.created[j], st.teamMap))
  {
    ImportAllTeams(rows, cols, teams);
  }

  /** The whole script on a file's text: the first row is the header (a file with no row
      makes the script fail, None), the others are imported. */
  method ImportFile(content: string, teams: map<string, Team>)
    returns (result: Option<(seq<ImportedMatch>, seq<string>)>)
    ensures ParseCsvSpec(content) == [] ==> result.None?
    ensures ParseCsvSpec(content) != [] ==>
      (var rows := ParseCsvSpec(content);
       var st := ImportAll(rows[1..], ResolveColumns(rows[0]), teams);
       result == Some((st.created, st.insertedTeams)))
  {
    var rows := ParseCsv(content);
    if rows == [] {
      return None;
    }
    var headers := rows[0];
    var created, inserted := ImportRows(rows[1..], ResolveColumns(headers), teams);
    result := Some((created, inserted));
  }
}
