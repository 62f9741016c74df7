/** The settlement-confirmation CSV: reading its text, and the JSON its rows are hashed and compared as. */
module ConfirmationCsv {
  import opened Sums
  import opened Decimal
  import opened CanonicalJson

  const CSV_HEADER :=
    "external_partner_id" + "," + "settlement_reference" + "," + "amount_minor" + "," + "currency" + ","
    + "payee_account_ref" + "," + "settlement_date"

  datatype CsvRow = CsvRow(
    externalPartnerId: string,
    settlementReference: string,
    amountMinor: string,
    currency: string,
    payeeAccountRef: string,
    settlementDate: string)

  // ---------------------------------------------------------------------------
  // Text
  // ---------------------------------------------------------------------------

  predicate Space(c: char) {
    c == ' ' || 9 <= c as int <= 13 || c as int in
      {0xA0, 0x1680, 0x2000, 0x2001, 0x2002, 0x2003, 0x2004, 0x2005, 0x2006, 0x2007, 0x2008, 0x2009, 0x200A,
       0x2028, 0x2029, 0x202F, 0x205F, 0x3000, 0xFEFF}
  }

  function TrimStart(t: string): string {
    if t != "" && Space(t[0]) then TrimStart(t[1..]) else t
  }

  function TrimEnd(t: string): string {
    if t != "" && Space(Last(t)) then TrimEnd(Front(t)) else t
  }

  function Trim(t: string): string {
    TrimEnd(TrimStart(t))
  }

  /** A carriage return in front of a line feed is dropped. */
  function UnixLines(t: string): string {
    if t == "" then ""
    else if "\r\n" <= t then "\n" + UnixLines(t[2..])
    else [t[0]] + UnixLines(t[1..])
  }

  function Split(t: string, separator: char): (parts: seq<string>)
    ensures parts != []
  {
    if t == "" then [""]
    else
      var rest := Split(t[1..], separator);
      if t[0] == separator then [""] + rest else [[t[0]] + rest[0]] + rest[1..]
  }

  function TrimAll(parts: seq<string>): (r: seq<string>)
    ensures |r| == |parts|
  {
    if parts == [] then [] else [Trim(parts[0])] + TrimAll(parts[1..])
  }

  function NonBlank(lines: seq<string>): seq<string> {
    if lines == [] then []
    else (if Trim(lines[0]) == "" then [] else [lines[0]]) + NonBlank(lines[1..])
  }

  // ---------------------------------------------------------------------------
  // Rows
  // ---------------------------------------------------------------------------

  /** One to eighteen digits: the amounts a signed 64-bit column and the request format can both hold. */
  predicate MinorText(t: string) {
    1 <= |t| <= 18 && forall i :: 0 <= i < |t| ==> Digit(t[i])
  }

  predicate CurrencyText(t: string) {
    |t| == 3 && forall i :: 0 <= i < 3 ==> 'A' <= t[i] <= 'Z'
  }

  predicate DateText(t: string) {
    |t| == 10 && t[4] == '-' && t[7] == '-' && forall i :: 0 <= i < 10 && i != 4 && i != 7 ==> Digit(t[i])
  }

  /** What every parsed row satisfies. */
  predicate WellFormed(row: CsvRow) {
    row.externalPartnerId != "" && row.settlementReference != "" && row.payeeAccountRef != "" &&
    MinorText(row.amountMinor) && CurrencyText(row.currency) && DateText(row.settlementDate)
  }

  function ParseRow(line: string): (r: Option<CsvRow>)
    ensures r.Some? ==> WellFormed(r.value)
  {
    var f := TrimAll(Split(line, ','));
    if |f| != 6 then None
    else
      var row := CsvRow(f[0], f[1], f[2], f[3], f[4], f[5]);
      if WellFormed(row) then Some(row) else None
  }

  function ParseRows(lines: seq<string>): (r: Option<seq<CsvRow>>)
    ensures r.Some? ==> |r.value| == |lines| && forall i :: 0 <= i < |lines| ==> WellFormed(r.value[i])
  {
    if lines == [] then Some([])
    else
      match (ParseRow(lines[0]), ParseRows(lines[1..]))
      case (Some(row), Some(rows)) => Some([row] + rows)
      case _ => None
  }

  /** The rows of a CSV with the expected header, unless some line is malformed. */
  function ParseConfirmationCsv(csv: string): (r: Option<seq<CsvRow>>)
    ensures r.Some? ==> forall i :: 0 <= i < |r.value| ==> WellFormed(r.value[i])
  {
    var lines := NonBlank(Split(UnixLines(csv), '\n'));
    if lines == [] || Trim(lines[0]) != CSV_HEADER then None else ParseRows(lines[1..])
  }

  // ---------------------------------------------------------------------------
  // Rows as JSON
  // ---------------------------------------------------------------------------

  function RowMembers(row: CsvRow): (ms: seq<Member>)
    ensures |ms| == 6
  {
    [ Member("external_partner_id", Str(row.externalPartnerId)),
      Member("settlement_reference", Str(row.settlementReference)),
      Member("amount_minor", Str(row.amountMinor)),
      Member("currency", Str(row.currency)),
      Member("payee_account_ref", Str(row.payeeAccountRef)),
      Member("settlement_date", Str(row.settlementDate)) ]
  }

  function RowJson(row: CsvRow): Json {
    Obj(RowMembers(row))
  }

  function RowsJson(rows: seq<CsvRow>): (items: seq<Json>)
    ensures |items| == |rows|
  {
    if rows == [] then [] else [RowJson(rows[0])] + RowsJson(rows[1..])
  }
}
