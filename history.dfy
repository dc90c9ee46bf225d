/** The data shaping of the history page: the CSV export, the date normaliser applied to the
    date filters, the "only my results" filter and the statistics it feeds, the list of
    finished matches handed to the summary table, and the team filter's options. */
module History {
  import opened Text

  /** A row of `match_results`; the numeric columns may be null. */
  datatype MatchResult = MatchResult(
    scoreA: Option<int>, scoreB: Option<int>,
    baskets1: Option<int>, baskets2: Option<int>, baskets3: Option<int>)

  /** A row of `matches` with its results; a null text column is the empty string, which is
      also what `Array.prototype.join` writes for it. */
  datatype MatchRow = MatchRow(
    id: string, dateIso: string, mode: string,
    teamAName: string, teamBName: string, status: string,
    results: seq<MatchResult>)

  /** A row of `player_entries` read for the logged-in user. */
  datatype PlayerEntry = PlayerEntry(matchId: string, teamSide: string)

  /** `x ?? 0`. */
  function OrZero(x: Option<int>): int {
    if x.Some? then x.value else 0
  }

  // ---------------------------------------------------------------------------
  // toCsv

  const Headers: seq<string> :=
    ["data", "modo", "time_a", "time_b", "score_a", "score_b", "cestas1", "cestas2", "cestas3"]

  /** `r.match_results?.[0]`, with every column missing when there is none. */
  function FirstOrEmpty(m: MatchRow): MatchResult {
    if m.results == [] then MatchResult(None, None, None, None, None) else m.results[0]
  }

  /** The nine cells written for a match: its own columns, then its first result's scores and
      basket counts, each 0 when the result or the column is missing. */
  function CsvFields(m: MatchRow): (r: seq<string>)
    ensures |r| == |Headers|
    ensures r[..4] == [m.dateIso, m.mode, m.teamAName, m.teamBName]
    ensures m.results == [] ==> r[4..] == ["0", "0", "0", "0", "0"]
    ensures m.results != [] ==>
              NumberOf(r[4]) == Some(OrZero(m.results[0].scoreA))
              && NumberOf(r[5]) == Some(OrZero(m.results[0].scoreB))
              && NumberOf(r[6]) == Some(OrZero(m.results[0].baskets1))
              && NumberOf(r[7]) == Some(OrZero(m.results[0].baskets2))
              && NumberOf(r[8]) == Some(OrZero(m.results[0].baskets3))
  {
    var res := FirstOrEmpty(m);
    NumberOfIntToString(OrZero(res.scoreA));
    NumberOfIntToString(OrZero(res.scoreB));
    NumberOfIntToString(OrZero(res.baskets1));
    NumberOfIntToString(OrZero(res.baskets2));
    NumberOfIntToString(OrZero(res.baskets3));
    [m.dateIso, m.mode, m.teamAName, m.teamBName,
     IntToString(OrZero(res.scoreA)), IntToString(OrZero(res.scoreB)),
     IntToString(OrZero(res.baskets1)), IntToString(OrZero(res.baskets2)),
     IntToString(OrZero(res.baskets3))]
  }

  /** The line written for a match. */
  function CsvLine(m: MatchRow): string {
    Join(CsvFields(m), ",")
  }

  /** The lines of the export: the header line, then one line per row. */
  function CsvLines(header: string, rows: seq<MatchRow>): (r: seq<string>)
    ensures |r| == |rows| + 1
    ensures r[0] == header
    ensures forall i :: 0 <= i < |rows| ==> r[i + 1] == CsvLine(rows[i])
  {
    if rows == [] then [header]
    else CsvLines(header, rows[..|rows| - 1]) + [CsvLine(rows[|rows| - 1])]
  }

  /** `toCsv(rows)`: pushes the header line and then one line per row, and joins the lines. */
  method ToCsv(rows: seq<MatchRow>) returns (csv: string)
    ensures csv == Join(CsvLines(Join(Headers, ","), rows), "\n")
  {
    var header := Join(Headers, ",");
    var lines := [header];
    for i := 0 to |rows|
      invariant lines == CsvLines(header, rows[..i])
    {
      assert rows[..i + 1][..i] == rows[..i];
      lines := lines + [CsvLine(rows[i])];
    }
    assert rows[..|rows|] == rows;
    csv := Join(lines, "\n");
  }

  /** The text columns of a row hold no line break and no comma. */
  predicate PlainText(m: MatchRow) {
    var text := [m.dateIso, m.mode, m.teamAName, m.teamBName];
    forall k :: 0 <= k < 4 ==> '\n' !in text[k] && ',' !in text[k]
  }

  lemma FieldsPlain(m: MatchRow)
    requires PlainText(m)
    ensures forall k :: 0 <= k < |CsvFields(m)| ==> '\n' !in CsvFields(m)[k] && ',' !in CsvFields(m)[k]
  {
    var res := FirstOrEmpty(m);
    IntToStringPlain(OrZero(res.scoreA));
    IntToStringPlain(OrZero(res.scoreB));
    IntToStringPlain(OrZero(res.baskets1));
    IntToStringPlain(OrZero(res.baskets2));
    IntToStringPlain(OrZero(res.baskets3));
  }

  lemma HeadersPlain()
    ensures forall k :: 0 <= k < |Headers| ==> '\n' !in Headers[k]
  {
  }

  lemma HeaderLinePlain()
    ensures '\n' !in Join(Headers, ",")
  {
    HeadersPlain();
    JoinExcludes(Headers, ",", '\n');
  }

  lemma LinePlain(m: MatchRow)
    requires PlainText(m)
    ensures '\n' !in CsvLine(m)
  {
    FieldsPlain(m);
    JoinExcludes(CsvFields(m), ",", '\n');
  }

  /** No line of the export holds a line break. */
  lemma LinesPlain(header: string, rows: seq<MatchRow>)
    requires '\n' !in header
    requires forall i :: 0 <= i < |rows| ==> PlainText(rows[i])
    ensures forall k :: 0 <= k < |CsvLines(header, rows)| ==> '\n' !in CsvLines(header, rows)[k]
  {
    var lines := CsvLines(header, rows);
    forall k | 0 <= k < |lines|
      ensures '\n' !in lines[k]
    {
      if k > 0 {
        assert lines[k] == CsvLine(rows[k - 1]);
        LinePlain(rows[k - 1]);
      }
    }
  }

  /** Splitting the export at its line breaks gives `rows.length + 1` lines: the header line
      (which holds no line break, by `HeaderLinePlain`), then the line of each row. */
  lemma ExportLines(header: string, rows: seq<MatchRow>)
    requires '\n' !in header
    requires forall i :: 0 <= i < |rows| ==> PlainText(rows[i])
    ensures SplitOn(Join(CsvLines(header, rows), "\n"), '\n') == CsvLines(header, rows)
  {
    LinesPlain(header, rows);
    SplitJoin(CsvLines(header, rows), '\n');
  }

  /** Splitting a row's line at its commas gives back its nine cells, and the score and basket
      cells read back as the first result's numbers, 0 for a missing one. */
  lemma LineReadsBack(m: MatchRow)
    requires PlainText(m)
    ensures SplitOn(CsvLine(m), ',') == CsvFields(m)
    ensures NumberOf(CsvFields(m)[4]) == Some(OrZero(FirstOrEmpty(m).scoreA))
    ensures NumberOf(CsvFields(m)[5]) == Some(OrZero(FirstOrEmpty(m).scoreB))
    ensures NumberOf(CsvFields(m)[6]) == Some(OrZero(FirstOrEmpty(m).baskets1))
    ensures NumberOf(CsvFields(m)[7]) == Some(OrZero(FirstOrEmpty(m).baskets2))
    ensures NumberOf(CsvFields(m)[8]) == Some(OrZero(FirstOrEmpty(m).baskets3))
  {
    LineSplitsBack(m);
    ScoresReadBack(m);
  }

  lemma LineSplitsBack(m: MatchRow)
    requires PlainText(m)
    ensures SplitOn(CsvLine(m), ',') == CsvFields(m)
  {
    FieldsPlain(m);
    SplitJoin(CsvFields(m), ',');
  }

  lemma ScoresReadBack(m: MatchRow)
    ensures NumberOf(CsvFields(m)[4]) == Some(OrZero(FirstOrEmpty(m).scoreA))
    ensures NumberOf(CsvFields(m)[5]) == Some(OrZero(FirstOrEmpty(m).scoreB))
    ensures NumberOf(CsvFields(m)[6]) == Some(OrZero(FirstOrEmpty(m).baskets1))
    ensures NumberOf(CsvFields(m)[7]) == Some(OrZero(FirstOrEmpty(m).baskets2))
    ensures NumberOf(CsvFields(m)[8]) == Some(OrZero(FirstOrEmpty(m).baskets3))
  {
    var f := CsvFields(m);
    if m.results == [] {
      assert f[4..][0] == "0";
      NumberOfIntToString(0);
      assert IntToString(0) == "0";
    }
  }

  // ---------------------------------------------------------------------------
  // normalizeDate

  /** Matches `^\d{4}-\d{2}-\d{2}$`. */
  predicate IsIsoDate(s: string) {
    |s| == 10 && IsDigit(s[0]) && IsDigit(s[1]) && IsDigit(s[2]) && IsDigit(s[3]) && s[4] == '-'
    && IsDigit(s[5]) && IsDigit(s[6]) && s[7] == '-' && IsDigit(s[8]) && IsDigit(s[9])
  }

  predicate IsDateSep(c: char) { c == '/' || c == '-' }

  /** Matches `^(\d{2})[\/-](\d{2})[\/-](\d{4})$`. */
  predicate IsDayFirstDate(s: string) {
    |s| == 10 && IsDigit(s[0]) && IsDigit(s[1]) && IsDateSep(s[2]) && IsDigit(s[3]) && IsDigit(s[4])
    && IsDateSep(s[5]) && IsDigit(s[6]) && IsDigit(s[7]) && IsDigit(s[8]) && IsDigit(s[9])
  }

  /** The year, month and day groups of a day-first date, written year first. */
  function YearFirst(raw: string): (r: string)
    requires IsDayFirstDate(raw)
    ensures IsIsoDate(r)
    ensures r[..4] == raw[6..] && r[5..7] == raw[3..5] && r[8..] == raw[..2]
  {
    raw[6..] + "-" + raw[3..5] + "-" + raw[..2]
  }

  /** `normalizeDate(input)`: the empty input as it is; otherwise the trimmed input, rewritten
      from day-first to year-first when it has that shape. */
  function NormalizeDate(input: string): (r: string)
    ensures input == "" ==> r == input
    ensures IsIsoDate(input) ==> r == input
    ensures input != "" && IsDayFirstDate(Trim(input)) ==> r == YearFirst(Trim(input))
    ensures input != "" && !IsDayFirstDate(Trim(input)) ==> r == Trim(input)
  {
    if input == "" then input
    else
      var raw := Trim(input);
      assert IsIsoDate(input) ==> raw == input by {
        if IsIsoDate(input) { IsoDateTrimmed(input); }
      }
      if IsIsoDate(raw) then raw
      else if IsDayFirstDate(raw) then YearFirst(raw)
      else raw
  }

  lemma IsoDateTrimmed(s: string)
    requires IsIsoDate(s)
    ensures IsTrimmed(s)
  {
  }

  /** Normalising twice is normalising once. */
  lemma NormalizeDateIdempotent(input: string)
    ensures NormalizeDate(NormalizeDate(input)) == NormalizeDate(input)
  {
    var r := NormalizeDate(input);
    if r != "" {
      if IsIsoDate(r) {
        IsoDateTrimmed(r);
      } else {
        assert r == Trim(input);
        TrimIdempotent(input);
        assert !IsDayFirstDate(Trim(r));
      }
    }
  }

  /** `yyyy-mm-dd` written day first with either separator in each position. */
  function DayFirst(iso: string, sep1: char, sep2: char): string
    requires IsIsoDate(iso)
  {
    iso[8..] + [sep1] + iso[5..7] + [sep2] + iso[..4]
  }

  /** Normalising a year-first date written day first gives the date back. */
  lemma NormalizeDayFirst(iso: string, sep1: char, sep2: char)
    requires IsIsoDate(iso) && IsDateSep(sep1) && IsDateSep(sep2)
    ensures NormalizeDate(DayFirst(iso, sep1, sep2)) == iso
  {
    var s := DayFirst(iso, sep1, sep2);
    assert IsDayFirstDate(s);
    assert IsTrimmed(s);
    var r := YearFirst(s);
    assert r == iso by {
      assert r[..4] == iso[..4] && r[5..7] == iso[5..7] && r[8..] == iso[8..];
      forall k | 0 <= k < 10 ensures r[k] == iso[k] {
        if k < 4 { assert r[k] == r[..4][k]; }
        else if 5 <= k < 7 { assert r[k] == r[5..7][k - 5]; }
        else if k >= 8 { assert r[k] == r[8..][k - 8]; }
      }
    }
  }

  // ---------------------------------------------------------------------------
  // The user's entries, filteredRows and doneMatches

  /** The map built by `loadUserMatchIds`: every entry with a match id maps it to its team
      side, a later entry replacing an earlier one. */
  function EntriesOf(entries: seq<PlayerEntry>): map<string, string>
  {
    if entries == [] then map[]
    else
      var e := entries[|entries| - 1];
      var m := EntriesOf(entries[..|entries| - 1]);
      if e.matchId != "" then m[e.matchId := e.teamSide] else m
  }

  /** The loop of `loadUserMatchIds`. */
  method LoadEntries(entries: seq<PlayerEntry>) returns (m: map<string, string>)
    ensures m == EntriesOf(entries)
  {
    m := map[];
    for i := 0 to |entries|
      invariant m == EntriesOf(entries[..i])
    {
      assert entries[..i + 1][..i] == entries[..i];
      if entries[i].matchId != "" {
        m := m[entries[i].matchId := entries[i].teamSide];
      }
    }
    assert entries[..|entries|] == entries;
  }

  /** The map's keys are exactly the non-empty match ids of the entries. */
  lemma {:induction false} EntriesOfKeys(entries: seq<PlayerEntry>)
    ensures forall id :: id in EntriesOf(entries) <==> id != "" && exists k :: 0 <= k < |entries| && entries[k].matchId == id
  {
    if entries != [] {
      var init := entries[..|entries| - 1];
      EntriesOfKeys(init);
      forall id | id in EntriesOf(entries)
        ensures id != "" && exists k :: 0 <= k < |entries| && entries[k].matchId == id
      {
        if id in EntriesOf(init) {
          var k :| 0 <= k < |init| && init[k].matchId == id;
          assert entries[k].matchId == id;
        } else {
          assert entries[|entries| - 1].matchId == id;
        }
      }
      forall k | 0 <= k < |entries| && entries[k].matchId != ""
        ensures entries[k].matchId in EntriesOf(entries)
      {
        if k < |init| {
          assert init[k].matchId == entries[k].matchId;
        }
      }
    }
  }

  /** Each id maps to the side of the last entry carrying it. */
  lemma {:induction false} EntriesOfLast(entries: seq<PlayerEntry>, k: nat)
    requires k < |entries| && entries[k].matchId != ""
    requires forall j :: k < j < |entries| ==> entries[j].matchId != entries[k].matchId
    ensures entries[k].matchId in EntriesOf(entries)
    ensures EntriesOf(entries)[entries[k].matchId] == entries[k].teamSide
  {
    var init := entries[..|entries| - 1];
    if k < |init| {
      assert init[k] == entries[k];
      forall j | k < j < |init| ensures init[j].matchId != init[k].matchId {
        assert init[j] == entries[j];
      }
      EntriesOfLast(init, k);
    }
  }

  /** `filteredRows`: every row unless "mine" is on for a logged-in user; then the rows the
      user has an entry for, in their order. */
  function FilteredRows(sorted: seq<MatchRow>, showMine: bool, userId: string, entries: map<string, string>): (r: seq<MatchRow>)
    ensures !showMine || userId == "" ==> r == sorted
    ensures showMine && userId != "" ==>
      |r| <= |sorted| && forall m :: m in r <==> m in sorted && m.id in entries
  {
    if !showMine || userId == "" then sorted
    else Mine(sorted, entries)
  }

  /** The rows the user has an entry for, in their order. */
  function Mine(rows: seq<MatchRow>, entries: map<string, string>): (r: seq<MatchRow>)
    ensures |r| <= |rows|
    ensures forall m :: m in r <==> m in rows && m.id in entries
    ensures (forall i :: 0 <= i < |rows| ==> rows[i].id in entries) ==> r == rows
  {
    if rows == [] then []
    else
      var rest := Mine(rows[1..], entries);
      assert forall m :: m in rows <==> m == rows[0] || m in rows[1..];
      assert (forall i :: 0 <= i < |rows| ==> rows[i].id in entries) ==>
               (forall i :: 0 <= i < |rows| - 1 ==> rows[1..][i].id in entries) && [rows[0]] + rows[1..] == rows;
      if rows[0].id in entries then [rows[0]] + rest else rest
  }

  /** The filter keeps the order of the rows: filtering two lists one after the other is
      filtering their concatenation, so the kept rows form a subsequence of the rows. */
  lemma {:induction false} MineAppend(a: seq<MatchRow>, c: seq<MatchRow>, entries: map<string, string>)
    ensures Mine(a + c, entries) == Mine(a, entries) + Mine(c, entries)
  {
    if a != [] {
      assert (a + c)[0] == a[0] && (a + c)[1..] == a[1..] + c;
      MineAppend(a[1..], c, entries);
    } else {
      assert a + c == c;
    }
  }

  /** Either way `filteredRows` keeps the order of the sorted rows. */
  lemma FilteredRowsAppend(a: seq<MatchRow>, c: seq<MatchRow>, showMine: bool, userId: string,
                           entries: map<string, string>)
    ensures FilteredRows(a + c, showMine, userId, entries)
            == FilteredRows(a, showMine, userId, entries) + FilteredRows(c, showMine, userId, entries)
  {
    MineAppend(a, c, entries);
  }

  /** A match the summary table counts: status `done` and at least one result. */
  predicate IsDone(m: MatchRow) {
    m.status == "done" && m.results != []
  }

  /** What `doneMatches` keeps of a finished match: its first result's scores and baskets. */
  datatype DoneMatch = DoneMatch(
    mode: string, teamAName: string, teamBName: string,
    scoreA: Option<int>, scoreB: Option<int>,
    baskets1: Option<int>, baskets2: Option<int>, baskets3: Option<int>)

  function Summary(m: MatchRow): DoneMatch
    requires m.results != []
  {
    var res := m.results[0];
    DoneMatch(m.mode, m.teamAName, m.teamBName, res.scoreA, res.scoreB, res.baskets1, res.baskets2, res.baskets3)
  }

  /** `doneMatches`: the summaries of exactly the finished rows, in their order. */
  function DoneMatches(rows: seq<MatchRow>): (r: seq<DoneMatch>)
    ensures |r| <= |rows|
    ensures forall d :: d in r <==> exists m :: m in rows && IsDone(m) && d == Summary(m)
    ensures (forall i :: 0 <= i < |rows| ==> !IsDone(rows[i])) ==> r == []
  {
    if rows == [] then []
    else
      var rest := DoneMatches(rows[1..]);
      assert forall m :: m in rows <==> m == rows[0] || m in rows[1..];
      if IsDone(rows[0]) then [Summary(rows[0])] + rest else rest
  }

  /** The summaries come in the order of the rows. */
  lemma {:induction false} DoneMatchesAppend(a: seq<MatchRow>, c: seq<MatchRow>)
    ensures DoneMatches(a + c) == DoneMatches(a) + DoneMatches(c)
  {
    if a != [] {
      assert (a + c)[0] == a[0] && (a + c)[1..] == a[1..] + c;
      DoneMatchesAppend(a[1..], c);
    } else {
      assert a + c == c;
    }
  }

  // ---------------------------------------------------------------------------
  // userStats

  datatype Outcome = WinA | WinB | Draw

  /** The winner of a result; a null score compares as 0. */
  function OutcomeOf(res: MatchResult): Outcome {
    var a := OrZero(res.scoreA);
    var b := OrZero(res.scoreB);
    if a > b then WinA else if b > a then WinB else Draw
  }

  /** The user's side in the match won it; a draw is nobody's win. */
  predicate UserWon(m: MatchRow, entries: map<string, string>)
    requires m.results != []
  {
    var o := OutcomeOf(m.results[0]);
    o != Draw && m.id in entries && entries[m.id] == (if o == WinA then "A" else "B")
  }

  /** The rows with a result. */
  function Total(rows: seq<MatchRow>): nat
  {
    if rows == [] then 0
    else Total(rows[..|rows| - 1]) + (if rows[|rows| - 1].results != [] then 1 else 0)
  }

  /** The rows with a result that the user's side won. */
  function Wins(rows: seq<MatchRow>, entries: map<string, string>): nat
  {
    if rows == [] then 0
    else
      var m := rows[|rows| - 1];
      Wins(rows[..|rows| - 1], entries) + (if m.results != [] && UserWon(m, entries) then 1 else 0)
  }

  /** `Math.round((wins / total) * 100)`, or 0 without results, in exact arithmetic. */
  function Pct(wins: nat, total: nat): nat
  {
    if total == 0 then 0 else (200 * wins + total) / (2 * total)
  }

  datatype Stats = Stats(wins: nat, total: nat, pct: nat)

  /** `userStats`: null unless "mine" is on for a logged-in user; otherwise the loop counts the
      rows with a result and those the user won. */
  method UserStats(rows: seq<MatchRow>, showMine: bool, userId: string, entries: map<string, string>)
    returns (stats: Option<Stats>)
    ensures stats.Some? <==> showMine && userId != ""
    ensures stats.Some? ==> stats.value == Stats(Wins(rows, entries), Total(rows), Pct(Wins(rows, entries), Total(rows)))
  {
    if !showMine || userId == "" {
      return None;
    }
    var wins, total := 0, 0;
    for i := 0 to |rows|
      invariant wins == Wins(rows[..i], entries) && total == Total(rows[..i])
    {
      assert rows[..i + 1][..i] == rows[..i];
      var m := rows[i];
      if m.results != [] {
        total := total + 1;
        if UserWon(m, entries) {
          wins := wins + 1;
        }
      }
    }
    assert rows[..|rows|] == rows;
    stats := Some(Stats(wins, total, Pct(wins, total)));
  }

  /** Every win is counted in the total. */
  lemma {:induction false} WinsAtMostTotal(rows: seq<MatchRow>, entries: map<string, string>)
    ensures Wins(rows, entries) <= Total(rows)
  {
    if rows != [] {
      WinsAtMostTotal(rows[..|rows| - 1], entries);
    }
  }

  /** A drawn result adds to the total and never to the wins. */
  lemma DrawIsNoWin(rows: seq<MatchRow>, m: MatchRow, entries: map<string, string>)
    requires m.results != [] && OutcomeOf(m.results[0]) == Draw
    ensures Total(rows + [m]) == Total(rows) + 1
    ensures Wins(rows + [m], entries) == Wins(rows, entries)
  {
    assert (rows + [m])[..|rows|] == rows;
  }

  lemma {:induction false} MulMono(a: nat, b: nat, d: nat)
    requires a <= b
    ensures a * d <= b * d
  {
    if d > 0 {
      MulMono(a, b, d - 1);
      assert a * d == a * (d - 1) + a && b * d == b * (d - 1) + b;
    }
  }

  /** `a / d` is `k` exactly when `k * d <= a < (k + 1) * d`. */
  lemma DivIs(a: nat, d: nat, k: nat)
    requires d > 0 && k * d <= a < k * d + d
    ensures a / d == k
  {
    var q, r := a / d, a % d;
    assert a == q * d + r && 0 <= r < d;
    if q > k {
      MulMono(k + 1, q, d);
    } else if q < k {
      MulMono(q + 1, k, d);
    }
  }

  /** The percentage lies between 0 and 100: 0 with no win, 100 when every result was won. */
  lemma PctBounds(wins: nat, total: nat)
    requires wins <= total
    ensures Pct(wins, total) <= 100
    ensures wins == 0 ==> Pct(wins, total) == 0
    ensures 0 < wins == total ==> Pct(wins, total) == 100
  {
    if total > 0 {
      var a, d := 200 * wins + total, 2 * total;
      var q := a / d;
      assert a == q * d + a % d && a % d >= 0;
      if q > 100 {
        MulMono(101, q, d);
      }
      if wins == 0 {
        DivIs(a, d, 0);
      }
      if wins == total {
        DivIs(a, d, 100);
      }
    }
  }

  // ---------------------------------------------------------------------------
  // teamOptions

  predicate NoDuplicates(s: seq<string>) {
    forall i, j :: 0 <= i < j < |s| ==> s[i] != s[j]
  }

  /** A name the team filter offers: a registered team's, or a non-empty name of a row. */
  predicate Offered(x: string, teams: seq<string>, rows: seq<MatchRow>) {
    x in teams || (x != "" && exists m :: m in rows && (m.teamAName == x || m.teamBName == x))
  }

  /** `teamOptions`: adds every team's name and every non-empty team name of the rows to a set,
      in that order; the result lists each such name once. */
  method TeamOptions(teams: seq<string>, rows: seq<MatchRow>) returns (names: seq<string>)
    ensures NoDuplicates(names)
    ensures forall x :: x in names <==> Offered(x, teams, rows)
  {
    names := [];
    for i := 0 to |teams|
      invariant NoDuplicates(names)
      invariant forall x :: x in names <==> x in teams[..i]
    {
      assert teams[..i + 1] == teams[..i] + [teams[i]];
      names := Add(names, teams[i]);
    }
    assert teams[..|teams|] == teams;
    for i := 0 to |rows|
      invariant NoDuplicates(names)
      invariant forall x :: x in names <==> x in teams || (x != "" && exists m :: m in rows[..i] && (m.teamAName == x || m.teamBName == x))
    {
      assert rows[..i + 1] == rows[..i] + [rows[i]];
      if rows[i].teamAName != "" {
        names := Add(names, rows[i].teamAName);
      }
      if rows[i].teamBName != "" {
        names := Add(names, rows[i].teamBName);
      }
    }
    assert rows[..|rows|] == rows;
  }

  /** `Set.prototype.add` on a list without duplicates. */
  function Add(names: seq<string>, x: string): (r: seq<string>)
    requires NoDuplicates(names)
    ensures NoDuplicates(r)
    ensures forall y :: y in r <==> y in names || y == x
  {
    if x in names then names else names + [x]
  }
}
