/** Which texts a confirmation CSV is read from: lines, blanks, trimming and fields told apart without the parser's own steps. */
module CsvReading {
  import opened Sums
  import opened CanonicalJson
  import opened ConfirmationCsv
  import opened CsvRoundTrip

  // ---------------------------------------------------------------------------
  // What is read, without saying how
  // ---------------------------------------------------------------------------

  /** The pieces with the separator between them. */
  function Glued(parts: seq<string>, separator: char): string
    requires parts != []
  {
    if |parts| == 1 then parts[0] else parts[0] + [separator] + Glued(parts[1..], separator)
  }

  /** `parts` is the text cut at every separator. */
  ghost predicate Cuts(t: string, separator: char, parts: seq<string>) {
    parts != [] && Glued(parts, separator) == t && forall i :: 0 <= i < |parts| ==> separator !in parts[i]
  }

  ghost predicate AllSpace(t: string) {
    forall i :: 0 <= i < |t| ==> Space(t[i])
  }

  /** `r` is the text without the space at either end. */
  ghost predicate Strips(t: string, r: string) {
    exists a, b :: AllSpace(a) && AllSpace(b) && t == a + r + b && Bare(r)
  }

  predicate Bare(r: string) {
    r == "" || (!Space(r[0]) && !Space(r[|r| - 1]))
  }

  ghost predicate AreStripped(parts: seq<string>, fields: seq<string>) {
    |parts| == |fields| && forall i :: 0 <= i < |parts| ==> Strips(parts[i], fields[i])
  }

  function FieldsOf(row: CsvRow): seq<string> {
    [row.externalPartnerId, row.settlementReference, row.amountMinor, row.currency, row.payeeAccountRef, row.settlementDate]
  }

  /** The line is six pieces between commas: the row's fields, with space around them. */
  ghost predicate LineHolds(line: string, row: CsvRow) {
    WellFormed(row) && exists parts :: Cuts(line, ',', parts) && AreStripped(parts, FieldsOf(row))
  }

  /** The lines of which not everything is space, in order. */
  ghost function Kept(lines: seq<string>): seq<string> {
    if lines == [] then [] else (if AllSpace(lines[0]) then [] else [lines[0]]) + Kept(lines[1..])
  }

  /** After the header, every line that is not blank holds a row. */
  ghost predicate Holds(lines: seq<string>, rows: seq<CsvRow>) {
    var kept := Kept(lines);
    && |kept| == |rows| + 1 && Strips(kept[0], CSV_HEADER)
    && forall i :: 0 <= i < |rows| ==> LineHolds(kept[i + 1], rows[i])
  }

  // ---------------------------------------------------------------------------
  // Cutting
  // ---------------------------------------------------------------------------

  lemma {:induction false} SplitGlues(t: string, separator: char)
    ensures Glued(Split(t, separator), separator) == t
  {
    if t != "" {
      SplitGlues(t[1..], separator);
      var rest := Split(t[1..], separator);
      if t[0] == separator {
        assert ([""] + rest)[1..] == rest;
        assert t == [separator] + t[1..];
      } else {
        assert ([[t[0]] + rest[0]] + rest[1..])[1..] == rest[1..];
        assert t == [t[0]] + t[1..];
      }
    }
  }

  lemma {:induction false} CutsAreSplit(parts: seq<string>, separator: char)
    requires parts != [] && forall i :: 0 <= i < |parts| ==> separator !in parts[i]
    ensures Split(Glued(parts, separator), separator) == parts
  {
    if |parts| == 1 {
      SplitWhole(parts[0], separator);
    } else {
      CutsAreSplit(parts[1..], separator);
      SplitFirst(parts[0], Glued(parts[1..], separator), separator);
    }
  }

  lemma SplitCuts(t: string, separator: char, parts: seq<string>)
    ensures Cuts(t, separator, parts) <==> parts == Split(t, separator)
  {
    SplitGlues(t, separator);
    PartsLackSeparator(t, separator);
    if Cuts(t, separator, parts) { CutsAreSplit(parts, separator); }
  }

  // ---------------------------------------------------------------------------
  // Trimming
  // ---------------------------------------------------------------------------

  lemma {:induction false} TrimStartCuts(t: string) returns (a: string)
    ensures AllSpace(a) && t == a + TrimStart(t) && (TrimStart(t) == "" || !Space(TrimStart(t)[0]))
  {
    if t != "" && Space(t[0]) {
      var rest := TrimStartCuts(t[1..]);
      a := [t[0]] + rest;
      assert t == [t[0]] + t[1..];
    } else {
      a := "";
    }
  }

  lemma {:induction false} TrimEndCuts(t: string) returns (b: string)
    ensures AllSpace(b) && t == TrimEnd(t) + b && (TrimEnd(t) == "" || !Space(Last(TrimEnd(t))))
  {
    if t != "" && Space(Last(t)) {
      var rest := TrimEndCuts(Front(t));
      b := rest + [Last(t)];
      assert t == Front(t) + [Last(t)];
    } else {
      b := "";
    }
  }

  lemma TrimStrips(t: string)
    ensures Strips(t, Trim(t))
  {
    hide Space;
    var a := TrimStartCuts(t);
    var b := TrimEndCuts(TrimStart(t));
    var r := Trim(t);
    if r != "" { assert r[0] == TrimStart(t)[0]; }
    assert t == a + r + b;
  }

  lemma FrontIsSpace(a: string, r: string, b: string, k: nat)
    requires AllSpace(a) && k < |a + r + b|
    ensures k < |a| ==> Space((a + r + b)[k])
  {
  }

  lemma EndIsSpace(a: string, r: string, b: string, k: nat)
    requires AllSpace(b) && k < |a + r + b|
    ensures k >= |a| + |r| ==> Space((a + r + b)[k])
  {
    if k >= |a| + |r| { assert (a + r + b)[k] == b[k - |a| - |r|]; }
  }

  lemma BothSpace(a: string, b: string)
    requires AllSpace(a) && AllSpace(b)
    ensures AllSpace(a + "" + b)
  {
    assert a + "" + b == a + b;
  }

  lemma EmptyStrip(t: string, c: string, r: string, d: string)
    requires AllSpace(t) && Bare(r) && t == c + r + d
    ensures r == ""
  {
    assert forall i :: 0 <= i < |r| ==> t[|c| + i] == r[i];
  }

  /** A text is stripped in one way only. */
  lemma StripsOnce(t: string, r: string, q: string)
    requires Strips(t, r) && Strips(t, q)
    ensures r == q
  {
    hide Space;
    var a, b :| AllSpace(a) && AllSpace(b) && t == a + r + b && Bare(r);
    var c, d :| AllSpace(c) && AllSpace(d) && t == c + q + d && Bare(q);
    if r == "" || q == "" {
      if r == "" {
        BothSpace(a, b);
        EmptyStrip(t, c, q, d);
      }
      if q == "" {
        BothSpace(c, d);
        EmptyStrip(t, a, r, b);
      }
    } else {
      assert t[|a|] == r[0] && t[|a| + |r| - 1] == r[|r| - 1];
      assert t[|c|] == q[0] && t[|c| + |q| - 1] == q[|q| - 1];
      FrontIsSpace(a, r, b, |c|);
      FrontIsSpace(c, q, d, |a|);
      EndIsSpace(a, r, b, |c| + |q| - 1);
      EndIsSpace(c, q, d, |a| + |r| - 1);
      assert r == t[|a|..|a| + |r|] && q == t[|c|..|c| + |q|];
    }
  }

  lemma TrimIsStrip(t: string, r: string)
    ensures Strips(t, r) <==> r == Trim(t)
  {
    TrimStrips(t);
    if Strips(t, r) { StripsOnce(t, r, Trim(t)); }
  }

  lemma BlankMeans(t: string)
    ensures AllSpace(t) <==> Trim(t) == ""
  {
    TrimIsStrip(t, "");
    if AllSpace(t) { assert AllSpace("") && t == t + "" + ""; }
    if Strips(t, "") {
      var a, b :| AllSpace(a) && AllSpace(b) && t == a + "" + b && Bare("");
      assert t == a + b;
    }
  }

  lemma {:induction false} KeptAre(lines: seq<string>)
    ensures Kept(lines) == NonBlank(lines)
  {
    hide Trim, AllSpace;
    if lines != [] {
      KeptAre(lines[1..]);
      BlankMeans(lines[0]);
    }
  }

  // ---------------------------------------------------------------------------
  // Rows
  // ---------------------------------------------------------------------------

  lemma TrimAllStrips(parts: seq<string>, fields: seq<string>)
    ensures AreStripped(parts, fields) <==> fields == TrimAll(parts)
  {
    hide Trim, Strips;
    forall i | 0 <= i < |parts| ensures TrimAll(parts)[i] == Trim(parts[i]) { TrimAllAt(parts, i); }
    if |fields| == |parts| {
      forall i | 0 <= i < |parts| ensures Strips(parts[i], fields[i]) <==> fields[i] == Trim(parts[i]) { TrimIsStrip(parts[i], fields[i]); }
    }
  }

  lemma LineIsRow(line: string, row: CsvRow)
    ensures LineHolds(line, row) <==> ParseRow(line) == Some(row)
  {
    var parts := Split(line, ',');
    SplitCuts(line, ',', parts);
    TrimAllStrips(parts, FieldsOf(row));
    hide Split, TrimAll, WellFormed, Cuts, AreStripped;
    if LineHolds(line, row) {
      var p :| Cuts(line, ',', p) && AreStripped(p, FieldsOf(row));
      SplitCuts(line, ',', p);
    }
    if ParseRow(line) == Some(row) {
      assert TrimAll(parts) == FieldsOf(row);
      assert Cuts(line, ',', parts) && AreStripped(parts, FieldsOf(row));
    }
  }

  ghost predicate LinesHold(lines: seq<string>, rows: seq<CsvRow>) {
    |lines| == |rows| && forall i :: 0 <= i < |rows| ==> LineHolds(lines[i], rows[i])
  }

  lemma LinesHoldStep(lines: seq<string>, rows: seq<CsvRow>)
    requires lines != [] && rows != []
    ensures LinesHold(lines, rows) <==> LineHolds(lines[0], rows[0]) && LinesHold(lines[1..], rows[1..])
  {
    hide LineHolds;
    if LineHolds(lines[0], rows[0]) && LinesHold(lines[1..], rows[1..]) {
      forall i | 0 <= i < |rows| ensures LineHolds(lines[i], rows[i]) {
        if i > 0 { assert lines[i] == lines[1..][i - 1] && rows[i] == rows[1..][i - 1]; }
      }
    }
  }

  lemma {:induction false} LinesAreRows(lines: seq<string>, rows: seq<CsvRow>)
    ensures ParseRows(lines) == Some(rows) <==> LinesHold(lines, rows)
  {
    hide ParseRow, LineHolds;
    if lines != [] && rows != [] {
      hide LinesHold;
      LinesAreRows(lines[1..], rows[1..]);
      LineIsRow(lines[0], rows[0]);
      LinesHoldStep(lines, rows);
      assert rows == [rows[0]] + rows[1..];
    }
  }

  // ---------------------------------------------------------------------------
  // Line ends
  // ---------------------------------------------------------------------------

  /** The same lines, but for a carriage return that ends some of them in the one list and not in the other. */
  ghost predicate SameButReturns(raw: seq<string>, unix: seq<string>) {
    |raw| == |unix| && forall i :: 0 <= i < |raw| ==> raw[i] == unix[i] || raw[i] == unix[i] + ['\r']
  }

  lemma {:induction false} UnixLinesSplit(t: string)
    ensures SameButReturns(Split(t, '\n'), Split(UnixLines(t), '\n'))
  {
    if t == "" {
    } else if "\r\n" <= t {
      UnixLinesSplit(t[2..]);
      assert t == "\r" + ['\n'] + t[2..];
      SplitFirst("\r", t[2..], '\n');
      SplitFirst("", UnixLines(t[2..]), '\n');
      assert "" + ['\n'] + UnixLines(t[2..]) == "\n" + UnixLines(t[2..]);
      assert "\r" == "" + ['\r'];
      ReturnsPrepend("\r", "", Split(t[2..], '\n'), Split(UnixLines(t[2..]), '\n'));
    } else {
      UnixLinesSplit(t[1..]);
      var u := [t[0]] + UnixLines(t[1..]);
      assert u[1..] == UnixLines(t[1..]);
      var raw, unix := Split(t[1..], '\n'), Split(u[1..], '\n');
      if t[0] == '\n' {
        ReturnsPrepend("", "", raw, unix);
      } else {
        assert raw[0] == unix[0] || raw[0] == unix[0] + ['\r'];
        assert [t[0]] + (unix[0] + ['\r']) == [t[0]] + unix[0] + ['\r'];
        ReturnsPrepend([t[0]] + raw[0], [t[0]] + unix[0], raw[1..], unix[1..]);
      }
    }
  }

  lemma ReturnsPrepend(a: string, b: string, raw: seq<string>, unix: seq<string>)
    requires SameButReturns(raw, unix) && (a == b || a == b + ['\r'])
    ensures SameButReturns([a] + raw, [b] + unix)
  {
  }

  lemma ReturnIsSpace(t: string)
    ensures Trim(t + ['\r']) == Trim(t)
  {
    TrimStrips(t);
    var a, b :| AllSpace(a) && AllSpace(b) && t == a + Trim(t) + b && Bare(Trim(t));
    assert Space('\r');
    assert AllSpace(b + ['\r']) && t + ['\r'] == a + Trim(t) + (b + ['\r']);
    assert Strips(t + ['\r'], Trim(t));
    TrimIsStrip(t + ['\r'], Trim(t));
  }

  lemma {:induction false} GluedGrows(parts: seq<string>, separator: char, more: string)
    requires parts != []
    ensures Glued(Front(parts) + [Last(parts) + more], separator) == Glued(parts, separator) + more
  {
    if |parts| == 1 {
      assert Front(parts) + [Last(parts) + more] == [parts[0] + more];
    } else {
      var tail := parts[1..];
      GluedGrows(tail, separator, more);
      var grown := Front(parts) + [Last(parts) + more];
      assert grown[0] == parts[0] && grown[1..] == Front(tail) + [Last(tail) + more];
      hide Glued;
      var head := parts[0] + [separator];
      assert head + (Glued(tail, separator) + more) == head + Glued(tail, separator) + more;
    }
  }

  lemma ReturnStaysLast(t: string, separator: char)
    requires separator != '\r'
    ensures var p := Split(t, separator); Split(t + ['\r'], separator) == Front(p) + [Last(p) + ['\r']]
  {
    var p := Split(t, separator);
    var grown := Front(p) + [Last(p) + ['\r']];
    SplitGlues(t, separator);
    PartsLackSeparator(t, separator);
    GluedGrows(p, separator, ['\r']);
    hide Split, Glued;
    CutsAreSplit(grown, separator);
  }

  lemma {:induction false} TrimAllConcat(a: seq<string>, b: seq<string>)
    ensures TrimAll(a + b) == TrimAll(a) + TrimAll(b)
  {
    hide Trim;
    forall i | 0 <= i < |a + b| ensures TrimAll(a + b)[i] == (TrimAll(a) + TrimAll(b))[i] {
      TrimAllAt(a + b, i);
      if i < |a| { TrimAllAt(a, i); } else { TrimAllAt(b, i - |a|); }
    }
  }

  lemma ReturnKeepsRow(t: string)
    ensures ParseRow(t + ['\r']) == ParseRow(t)
  {
    var p := Split(t, ',');
    ReturnStaysLast(t, ',');
    ReturnIsSpace(Last(p));
    TrimAllConcat(Front(p), [Last(p)]);
    TrimAllConcat(Front(p), [Last(p) + ['\r']]);
    assert Front(p) + [Last(p)] == p;
    hide Trim, WellFormed;
  }

  lemma {:induction false} ReturnsKeepRows(raw: seq<string>, unix: seq<string>)
    requires SameButReturns(raw, unix)
    ensures ParseRows(raw) == ParseRows(unix) && SameButReturns(NonBlank(raw), NonBlank(unix))
  {
    hide ParseRow, Trim;
    if raw != [] {
      ReturnsKeepRows(raw[1..], unix[1..]);
      ReturnKeepsRow(unix[0]);
      ReturnIsSpace(unix[0]);
      if Trim(unix[0]) != "" { ReturnsPrepend(raw[0], unix[0], NonBlank(raw[1..]), NonBlank(unix[1..])); }
    }
  }

  lemma OneCutting(csv: string, rows: seq<CsvRow>)
    ensures (exists lines :: Cuts(csv, '\n', lines) && Holds(lines, rows)) <==> Holds(Split(csv, '\n'), rows)
  {
    hide Holds, Cuts, Split;
    SplitCuts(csv, '\n', Split(csv, '\n'));
    if lines :| Cuts(csv, '\n', lines) && Holds(lines, rows) { SplitCuts(csv, '\n', lines); }
  }

  lemma HoldsParts(lines: seq<string>, rows: seq<CsvRow>)
    ensures Holds(lines, rows) <==> Kept(lines) != [] && Strips(Kept(lines)[0], CSV_HEADER) && LinesHold(Kept(lines)[1..], rows)
  {
    hide Kept, Strips, LineHolds, CSV_HEADER;
    if Kept(lines) != [] {
      var tail := Kept(lines)[1..];
      assert forall i :: 0 <= i < |tail| ==> tail[i] == Kept(lines)[i + 1];
    }
  }

  lemma KeptReads(kept: seq<string>, read: seq<string>, rows: seq<CsvRow>)
    requires kept != [] && SameButReturns(kept, read)
    ensures Trim(read[0]) == CSV_HEADER <==> Strips(kept[0], CSV_HEADER)
    ensures ParseRows(read[1..]) == Some(rows) <==> LinesHold(kept[1..], rows)
  {
    hide Trim, ParseRows, LinesHold, Strips, CSV_HEADER;
    ReturnIsSpace(read[0]);
    TrimIsStrip(kept[0], CSV_HEADER);
    TailReturns(kept, read);
    ReturnsKeepRows(kept[1..], read[1..]);
    LinesAreRows(kept[1..], rows);
  }

  /** A text is read as these rows exactly if its lines, cut at the line feeds, hold them: returns and blank lines do not matter. */
  lemma ReadsExactly(csv: string, rows: seq<CsvRow>)
    ensures ParseConfirmationCsv(csv) == Some(rows) <==> exists lines :: Cuts(csv, '\n', lines) && Holds(lines, rows)
  {
    var raw, unix := Split(csv, '\n'), Split(UnixLines(csv), '\n');
    UnixLinesSplit(csv);
    ReturnsKeepRows(raw, unix);
    KeptAre(raw);
    OneCutting(csv, rows);
    HoldsParts(raw, rows);
    hide Split, UnixLines, Trim, NonBlank, ParseRows, LinesHold, Strips, Kept, Cuts, Holds, CSV_HEADER;
    if NonBlank(raw) != [] { KeptReads(NonBlank(raw), NonBlank(unix), rows); }
  }

  lemma TailReturns(raw: seq<string>, unix: seq<string>)
    requires raw != [] && SameButReturns(raw, unix)
    ensures SameButReturns(raw[1..], unix[1..])
  {
  }
}
