/** Which rows the confirmation CSV can carry: exactly those that come back when written out. */
module CsvRoundTrip {
  import opened Sums
  import opened Decimal
  import opened CanonicalJson
  import opened ConfirmationCsv

  /** A field that survives being written between commas on a line of its own. */
  predicate PlainField(t: string) {
    ',' !in t && '\n' !in t && Trim(t) == t
  }

  predicate PlainRow(row: CsvRow) {
    PlainField(row.externalPartnerId) && PlainField(row.settlementReference) && PlainField(row.payeeAccountRef)
  }

  ghost predicate Writable(rows: seq<CsvRow>) {
    forall i :: 0 <= i < |rows| ==> WellFormed(rows[i]) && PlainRow(rows[i])
  }

  function Line(row: CsvRow): string {
    row.externalPartnerId + "," + (row.settlementReference + "," + (row.amountMinor + "," + (row.currency + ","
      + (row.payeeAccountRef + "," + row.settlementDate))))
  }

  function Lines(rows: seq<CsvRow>): (r: seq<string>)
    ensures |r| == |rows|
  {
    if rows == [] then [] else [Line(rows[0])] + Lines(rows[1..])
  }

  /** Lines joined by line feeds. */
  function Joined(lines: seq<string>): string
    requires lines != []
  {
    if |lines| == 1 then lines[0] else lines[0] + "\n" + Joined(lines[1..])
  }

  function CsvText(rows: seq<CsvRow>): string {
    Joined([CSV_HEADER] + Lines(rows))
  }

  // ---------------------------------------------------------------------------
  // Splitting
  // ---------------------------------------------------------------------------

  lemma {:induction false} SplitWhole(a: string, separator: char)
    requires separator !in a
    ensures Split(a, separator) == [a]
  {
    if a != "" {
      SplitWhole(a[1..], separator);
      assert [a[0]] + a[1..] == a;
    }
  }

  lemma {:induction false} SplitFirst(a: string, rest: string, separator: char)
    requires separator !in a
    ensures Split(a + [separator] + rest, separator) == [a] + Split(rest, separator)
  {
    var t := a + [separator] + rest;
    if a == "" {
      assert t[1..] == rest;
    } else {
      SplitFirst(a[1..], rest, separator);
      assert t[1..] == a[1..] + [separator] + rest;
      assert [a[0]] + a[1..] == a;
    }
  }

  lemma {:induction false} PartsLackSeparator(t: string, separator: char)
    ensures forall i :: 0 <= i < |Split(t, separator)| ==> separator !in Split(t, separator)[i]
  {
    if t != "" { PartsLackSeparator(t[1..], separator); }
  }

  lemma {:induction false} PartsLack(t: string, separator: char, c: char)
    requires c !in t
    ensures forall i :: 0 <= i < |Split(t, separator)| ==> c !in Split(t, separator)[i]
  {
    if t != "" {
      assert c !in t[1..] && t[0] in t;
      PartsLack(t[1..], separator, c);
    }
  }

  lemma {:induction false} SplitJoined(lines: seq<string>)
    requires lines != [] && forall i :: 0 <= i < |lines| ==> '\n' !in lines[i]
    ensures Split(Joined(lines), '\n') == lines
  {
    if |lines| == 1 {
      SplitWhole(lines[0], '\n');
    } else {
      SplitJoined(lines[1..]);
      SplitFirst(lines[0], Joined(lines[1..]), '\n');
    }
  }

  // ---------------------------------------------------------------------------
  // Trimming
  // ---------------------------------------------------------------------------

  lemma {:induction false} TrimStartKeeps(t: string)
    ensures forall c :: c in TrimStart(t) ==> c in t
    ensures TrimStart(t) != "" ==> !Space(TrimStart(t)[0])
    ensures TrimStart(t) != "" ==> Last(TrimStart(t)) == Last(t)
  {
    if t != "" && Space(t[0]) { TrimStartKeeps(t[1..]); }
  }

  lemma {:induction false} TrimEndKeeps(t: string)
    ensures forall c :: c in TrimEnd(t) ==> c in t
    ensures TrimEnd(t) != "" ==> !Space(Last(TrimEnd(t))) && TrimEnd(t)[0] == t[0]
  {
    if t != "" && Space(Last(t)) { TrimEndKeeps(Front(t)); }
  }

  /** A text with no space at either end is left alone. */
  lemma TrimmedAlready(t: string)
    requires t != "" ==> !Space(t[0]) && !Space(Last(t))
    ensures Trim(t) == t
  {
  }

  lemma TrimIsPlain(t: string)
    ensures Trim(Trim(t)) == Trim(t)
    ensures forall c :: c in Trim(t) ==> c in t
    ensures Trim(t) != "" ==> !Space(Trim(t)[0]) && !Space(Last(Trim(t)))
  {
    TrimStartKeeps(t);
    TrimEndKeeps(TrimStart(t));
    TrimmedAlready(Trim(t));
  }

  // ---------------------------------------------------------------------------
  // Writing and reading back
  // ---------------------------------------------------------------------------

  lemma DigitsArePlain(t: string)
    requires t != "" && forall i :: 0 <= i < |t| ==> Digit(t[i]) || t[i] == '-' || 'A' <= t[i] <= 'Z'
    ensures PlainField(t)
  {
    TrimmedAlready(t);
  }

  lemma FieldsArePlain(row: CsvRow)
    requires WellFormed(row) && PlainRow(row)
    ensures PlainField(row.amountMinor) && PlainField(row.currency) && PlainField(row.settlementDate)
  {
    DigitsArePlain(row.amountMinor);
    DigitsArePlain(row.currency);
    DigitsArePlain(row.settlementDate);
  }

  lemma LineIs(row: CsvRow)
    ensures Line(row)
         == row.externalPartnerId + [','] + (row.settlementReference + [','] + (row.amountMinor + [','] + (row.currency + [',']
            + (row.payeeAccountRef + [','] + row.settlementDate))))
  {
  }

  lemma SplitThree(a: string, b: string, c: string, rest: string)
    requires ',' !in a && ',' !in b && ',' !in c
    ensures Split(a + [','] + (b + [','] + (c + [','] + rest)), ',') == [a, b, c] + Split(rest, ',')
  {
    hide Split;
    SplitFirst(a, b + [','] + (c + [','] + rest), ',');
    SplitFirst(b, c + [','] + rest, ',');
    SplitFirst(c, rest, ',');
  }

  lemma LineSplits(row: CsvRow)
    requires WellFormed(row) && PlainRow(row)
    ensures Split(Line(row), ',') == [row.externalPartnerId, row.settlementReference, row.amountMinor, row.currency,
                                      row.payeeAccountRef, row.settlementDate]
  {
    FieldsArePlain(row);
    hide WellFormed, Trim, Split, Line;
    LineIs(row);
    var rest := row.currency + [','] + (row.payeeAccountRef + [','] + row.settlementDate);
    SplitThree(row.externalPartnerId, row.settlementReference, row.amountMinor, rest);
    SplitFirst(row.currency, row.payeeAccountRef + [','] + row.settlementDate, ',');
    SplitFirst(row.payeeAccountRef, row.settlementDate, ',');
    SplitWhole(row.settlementDate, ',');
  }

  lemma {:induction false} TrimAllAt(parts: seq<string>, i: nat)
    requires i < |parts|
    ensures TrimAll(parts)[i] == Trim(parts[i])
  {
    if i > 0 { TrimAllAt(parts[1..], i - 1); }
  }

  lemma LineReads(row: CsvRow)
    requires WellFormed(row) && PlainRow(row)
    ensures ParseRow(Line(row)) == Some(row)
  {
    LineSplits(row);
    FieldsArePlain(row);
    hide WellFormed, Split, Trim, TrimAll;
    var parts := Split(Line(row), ',');
    TrimAllAt(parts, 0);
    TrimAllAt(parts, 1);
    TrimAllAt(parts, 2);
    TrimAllAt(parts, 3);
    TrimAllAt(parts, 4);
    TrimAllAt(parts, 5);
  }

  lemma {:induction false} LinesRead(rows: seq<CsvRow>)
    requires Writable(rows)
    ensures ParseRows(Lines(rows)) == Some(rows)
  {
    hide ParseRow, Line, WellFormed, PlainRow;
    if rows != [] {
      LineReads(rows[0]);
      LinesRead(rows[1..]);
      assert rows == [rows[0]] + rows[1..];
    }
  }

  /** A line without line feeds that starts and ends in something other than space. */
  predicate SolidLine(t: string) {
    t != "" && '\n' !in t && !Space(t[0]) && !Space(Last(t))
  }

  lemma LineIsSolid(row: CsvRow)
    requires WellFormed(row) && PlainRow(row)
    ensures SolidLine(Line(row))
  {
    FieldsArePlain(row);
    var l := Line(row);
    TrimIsPlain(row.externalPartnerId);
    assert l[0] == row.externalPartnerId[0];
    assert Last(l) == Last(row.settlementDate) && Digit(Last(l));
    hide Trim, Space;
    assert '\n' !in l;
  }

  lemma {:induction false} LinesAreSolid(rows: seq<CsvRow>)
    requires Writable(rows)
    ensures forall i :: 0 <= i < |rows| ==> SolidLine(Lines(rows)[i])
  {
    hide SolidLine, Line, WellFormed, PlainRow;
    if rows != [] {
      LineIsSolid(rows[0]);
      LinesAreSolid(rows[1..]);
    }
  }

  lemma {:induction false} SolidIsNonBlank(lines: seq<string>)
    requires forall i :: 0 <= i < |lines| ==> SolidLine(lines[i])
    ensures NonBlank(lines) == lines
  {
    if lines != [] {
      TrimmedAlready(lines[0]);
      SolidIsNonBlank(lines[1..]);
      assert lines == [lines[0]] + lines[1..];
    }
  }

  /** No carriage return is followed by a line feed. */
  predicate UnixAlready(t: string) {
    forall i :: 0 <= i < |t| - 1 ==> !(t[i] == '\r' && t[i + 1] == '\n')
  }

  lemma {:induction false} UnixLinesKept(t: string)
    requires UnixAlready(t)
    ensures UnixLines(t) == t
  {
    if t != "" {
      assert !("\r\n" <= t) by {
        if |t| >= 2 { assert !(t[0] == '\r' && t[0 + 1] == '\n'); }
      }
      assert forall i :: 0 <= i < |t[1..]| ==> t[1..][i] == t[i + 1];
      UnixLinesKept(t[1..]);
    }
  }

  lemma {:induction false} JoinedIsUnix(lines: seq<string>)
    requires lines != [] && forall i :: 0 <= i < |lines| ==> SolidLine(lines[i])
    ensures UnixAlready(Joined(lines))
  {
    assert Space('\r');
    if |lines| > 1 {
      JoinedIsUnix(lines[1..]);
      var a, rest := lines[0], Joined(lines[1..]);
      var t := a + "\n" + rest;
      forall i | 0 <= i < |t| - 1 ensures !(t[i] == '\r' && t[i + 1] == '\n') {
        if i == |a| - 1 { assert t[i] == Last(a); }
        if i > |a| { assert t[i] == rest[i - |a| - 1] && t[i + 1] == rest[i - |a|]; }
        if i < |a| - 1 { assert t[i + 1] == a[i + 1]; }
      }
    }
  }

  /** Rows that are well formed and separable come back from the CSV they are written as. */
  lemma WrittenReads(rows: seq<CsvRow>)
    requires Writable(rows)
    ensures ParseConfirmationCsv(CsvText(rows)) == Some(rows)
  {
    hide WellFormed, PlainRow, Line, ParseRow, Joined, UnixLines, Split, NonBlank, ParseRows;
    var lines := [CSV_HEADER] + Lines(rows);
    HeaderIsSolid();
    LinesAreSolid(rows);
    JoinedIsUnix(lines);
    UnixLinesKept(CsvText(rows));
    SplitJoined(lines);
    SolidIsNonBlank(lines);
    TrimmedAlready(CSV_HEADER);
    LinesRead(rows);
    assert lines[1..] == Lines(rows);
  }

  lemma HeaderIsSolid()
    ensures SolidLine(CSV_HEADER)
  {
  }

  // ---------------------------------------------------------------------------
  // Nothing else is read
  // ---------------------------------------------------------------------------

  lemma ReadRowIsPlain(line: string)
    requires ParseRow(line).Some? && '\n' !in line
    ensures PlainRow(ParseRow(line).value)
  {
    var parts := Split(line, ',');
    PartsLackSeparator(line, ',');
    PartsLack(line, ',', '\n');
    hide WellFormed, Split, Trim, TrimAll;
    TrimAllAt(parts, 0);
    TrimAllAt(parts, 1);
    TrimAllAt(parts, 4);
    TrimIsPlain(parts[0]);
    TrimIsPlain(parts[1]);
    TrimIsPlain(parts[4]);
  }

  lemma {:induction false} ReadRowsArePlain(lines: seq<string>)
    requires ParseRows(lines).Some? && forall i :: 0 <= i < |lines| ==> '\n' !in lines[i]
    ensures Writable(ParseRows(lines).value)
  {
    hide ParseRow, WellFormed, PlainRow;
    if lines != [] {
      ReadRowIsPlain(lines[0]);
      ReadRowsArePlain(lines[1..]);
    }
  }

  lemma {:induction false} NonBlankAmong(lines: seq<string>, i: nat)
    requires i < |NonBlank(lines)|
    ensures NonBlank(lines)[i] in lines
  {
    if lines != [] {
      if Trim(lines[0]) == "" {
        NonBlankAmong(lines[1..], i);
      } else if i > 0 {
        NonBlankAmong(lines[1..], i - 1);
      }
    }
  }

  lemma ReadIsWritable(csv: string)
    requires ParseConfirmationCsv(csv).Some?
    ensures Writable(ParseConfirmationCsv(csv).value)
  {
    var all := Split(UnixLines(csv), '\n');
    var lines := NonBlank(all);
    PartsLackSeparator(UnixLines(csv), '\n');
    hide ParseRows, WellFormed, PlainRow, UnixLines, Split, NonBlank, Trim;
    forall i | 0 <= i < |lines| ensures '\n' !in lines[i] {
      NonBlankAmong(all, i);
      var k :| 0 <= k < |all| && all[k] == lines[i];
    }
    ReadRowsArePlain(lines[1..]);
  }

  /** The parser yields exactly the writable lists of rows. */
  lemma ReadsExactlyWritable(rows: seq<CsvRow>)
    ensures (exists csv :: ParseConfirmationCsv(csv) == Some(rows)) <==> Writable(rows)
  {
    hide ParseConfirmationCsv, Writable;
    if exists csv :: ParseConfirmationCsv(csv) == Some(rows) {
      var csv :| ParseConfirmationCsv(csv) == Some(rows);
      ReadIsWritable(csv);
    }
    if Writable(rows) { WrittenReads(rows); }
  }
}
