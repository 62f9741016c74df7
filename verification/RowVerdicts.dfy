/** What an import says about each row of a confirmation CSV, and what it puts on record. */
module RowVerdicts {
  import opened Ordering
  import opened Decimal
  import opened CanonicalJson
  import opened Ledger
  import opened DrawMachine
  import opened ConfirmationCsv
  import opened Workflow
  import opened WorkflowRuns

  // ---------------------------------------------------------------------------
  // Dates
  // ---------------------------------------------------------------------------

  /** The digit at a position of a text. */
  function At(t: string, i: nat): int
    requires i < |t|
  {
    t[i] as int - '0' as int
  }

  /** A date as a number, year before month before day. */
  function DayNumber(t: string): int
    requires DateText(t)
  {
    At(t, 0) * 10000000 + At(t, 1) * 1000000 + At(t, 2) * 100000 + At(t, 3) * 10000
    + At(t, 5) * 1000 + At(t, 6) * 100 + At(t, 8) * 10 + At(t, 9)
  }

  lemma DigitsBound(t: string)
    requires DateText(t)
    ensures forall i :: 0 <= i < 10 && i != 4 && i != 7 ==> 0 <= At(t, i) <= 9
  {
    forall i | 0 <= i < 10 && i != 4 && i != 7 ensures 0 <= At(t, i) <= 9 { assert Digit(t[i]); }
  }

  lemma EarlierSplits(a: string, b: string, k: nat)
    requires DateText(a) && DateText(b) && SplitsAt(a, b, k)
    ensures DayNumber(a) < DayNumber(b)
  {
    DigitsBound(a);
    DigitsBound(b);
    assert forall i :: 0 <= i < k ==> a[i] == a[..k][i] == b[..k][i] == b[i];
    assert At(a, k) < At(b, k) && k != 4 && k != 7;
    hide DateText;
  }

  /** Comparing two dates as texts compares them as dates. */
  lemma DatesCompare(a: string, b: string)
    requires DateText(a) && DateText(b)
    ensures StringLess(a, b) <==> DayNumber(a) < DayNumber(b)
  {
    if StringLess(a, b) {
      var k := StringLessSplits(a, b);
      EarlierSplits(a, b, k);
    } else {
      StringLessTotal(a, b);
      if StringLess(b, a) {
        var k := StringLessSplits(b, a);
        EarlierSplits(b, a, k);
      }
    }
  }

  // ---------------------------------------------------------------------------
  // What does not match
  // ---------------------------------------------------------------------------

  function Rank(m: Mismatch): int {
    match m
    case Amount => 0
    case Currency => 1
    case Payee => 2
    case Date => 3
    case _ => 4
  }

  /** At most one of each of the four codes of a comparison, in this order: amount, currency, payee, date. */
  ghost predicate InOrder(codes: seq<Mismatch>) {
    && (forall p :: 0 <= p < |codes| ==> Rank(codes[p]) < 4)
    && (forall p, q :: 0 <= p < q < |codes| ==> Rank(codes[p]) < Rank(codes[q]))
  }

  /** Each code stands for its own comparison. */
  ghost predicate CodesTell(codes: seq<Mismatch>, row: CsvRow, i: Instruction, account: Account) {
    && (Amount in codes <==> ParseMinor(row.amountMinor) != Some(i.amount))
    && (Currency in codes <==> row.currency != i.currency)
    && (Payee in codes <==> row.payeeAccountRef != account.accountRef)
    && (Date in codes <==> ComesBefore(row.settlementDate, if |i.instructedAt| < 10 then i.instructedAt else i.instructedAt[..10]))
    && InOrder(codes)
  }

  lemma MismatchesTell(row: CsvRow, i: Instruction, account: Account)
    requires i.amount > 0
    ensures CodesTell(Mismatches(row, i, account.accountRef), row, i, account)
  {
    StringLessExactly(row.settlementDate, DateOf(i.instructedAt));
    hide StringLess, ComesBefore, NumeralValue, MinorText;
    var amount, currency := ParseMinor(row.amountMinor) != Some(i.amount), row.currency != i.currency;
    var payee, date := row.payeeAccountRef != account.accountRef, StringLess(row.settlementDate, DateOf(i.instructedAt));
    CodesOf(amount, currency, payee, date);
  }

  ghost predicate Below(codes: seq<Mismatch>, rank: int) {
    forall p :: 0 <= p < |codes| ==> Rank(codes[p]) < rank
  }

  predicate Has(codes: seq<Mismatch>, code: Mismatch) {
    code in codes
  }

  lemma OneMoreCode(codes: seq<Mismatch>, code: Mismatch, yes: bool, other: Mismatch)
    requires InOrder(codes) && Below(codes, Rank(code)) && Rank(code) < 4 && other != code
    ensures var more := codes + if yes then [code] else [];
            InOrder(more) && Below(more, Rank(code) + 1) && (Has(more, code) <==> yes) && (Has(more, other) <==> Has(codes, other))
  {
    hide Rank;
  }

  lemma CodesOf(amount: bool, currency: bool, payee: bool, date: bool)
    ensures var codes := (if amount then [Amount] else []) + (if currency then [Currency] else []) + (if payee then [Payee] else [])
                         + (if date then [Date] else []);
            && (Has(codes, Amount) <==> amount) && (Has(codes, Currency) <==> currency) && (Has(codes, Payee) <==> payee)
            && (Has(codes, Date) <==> date) && InOrder(codes)
  {
    NoCodes();
    hide InOrder, Below, Has;
    var a := if amount then [Amount] else [];
    var b := a + if currency then [Currency] else [];
    var c := b + if payee then [Payee] else [];
    assert [] + a == a;
    OneMoreCode([], Amount, amount, Date);
    OneMoreCode(a, Currency, currency, Amount);
    OneMoreCode(b, Payee, payee, Amount);
    OneMoreCode(b, Payee, payee, Currency);
    OneMoreCode(c, Date, date, Amount);
    OneMoreCode(c, Date, date, Currency);
    OneMoreCode(c, Date, date, Payee);
  }

  lemma NoCodes()
    ensures InOrder([]) && Below([], 0)
  {
  }

  /** A row dated on the day of its instruction or later never gets DATE, and one dated earlier always does. */
  lemma DateCodeMeansEarlier(codes: seq<Mismatch>, row: CsvRow, i: Instruction, account: Account)
    requires CodesTell(codes, row, i, account)
    requires DateText(row.settlementDate) && |i.instructedAt| >= 10 && DateText(i.instructedAt[..10])
    ensures Date in codes <==> DayNumber(row.settlementDate) < DayNumber(i.instructedAt[..10])
  {
    StringLessExactly(row.settlementDate, i.instructedAt[..10]);
    DatesCompare(row.settlementDate, i.instructedAt[..10]);
  }

  // ---------------------------------------------------------------------------
  // What each row leaves behind
  // ---------------------------------------------------------------------------

  /** The partner's word as it is put on record, under both people's names. */
  ghost predicate Confirms(cfg: Config, ic: ImportContext, row: CsvRow, instructionId: Option<string>, c: Confirmation) {
    && c.instructionId == instructionId && c.partner == row.externalPartnerId && c.reference == row.settlementReference
    && ParseMinor(row.amountMinor) == Some(c.amount) && c.currency == row.currency && c.payeeAccountRef == row.payeeAccountRef
    && c.settlementDate == row.settlementDate && c.rawHash == "sha256:" + cfg.sha(AuditText(RowJson(row)))
    && c.enteredBy == ic.entrant && c.secondEntryBy == ic.confirmer && c.enteredBy != c.secondEntryBy
  }

  /** The result names the row and repeats what was put on record: the draw and the codes. */
  ghost predicate Reports(s: State, t: State, ic: ImportContext, row: CsvRow, result: RowResult,
                          drawId: Option<string>, instructionId: Option<string>, confirmationId: Option<string>) {
    && result.line == ic.index + 2 && result.partner == row.externalPartnerId && result.reference == row.settlementReference
    && result.drawId == drawId
    && t.records == s.records + [ReconciliationRecord(drawId, instructionId, confirmationId, result.codes, ic.entrant)]
  }

  lemma NewConfirmationIs(cfg: Config, s: State, env: Env, ic: ImportContext, row: CsvRow, instructionId: Option<string>)
    requires InsertConfirmation(s, NewConfirmation(cfg, env, ic, row, instructionId)).Ok?
    ensures Confirms(cfg, ic, row, instructionId, NewConfirmation(cfg, env, ic, row, instructionId))
  {
    hide CalendarDate, ConfirmationExists, NumeralValue, AuditText, MinorText;
  }

  lemma Excepted(cfg: Config, s: State, env: Env, ic: ImportContext, row: CsvRow, drawId: Option<string>,
                 instructionId: Option<string>, confirmation: Option<Confirmation>, codes: seq<Mismatch>)
    requires RecordException(cfg, s, env, ic, row, drawId, instructionId, confirmation, codes).Ok?
    ensures var (t, result) := RecordException(cfg, s, env, ic, row, drawId, instructionId, confirmation, codes).value;
            && t == s.(chain := t.chain, records := t.records, confirmations := t.confirmations)
            && t.confirmations == s.confirmations + (if confirmation.Some? then [confirmation.value] else [])
            && Reports(s, t, ic, row, result, drawId, instructionId, if confirmation.Some? then Some(confirmation.value.id) else None)
            && result.codes == codes
    ensures confirmation.Some? ==> exists s1: State :: InsertConfirmation(s1, confirmation.value).Ok?
  {
    hide AppendTo, BreakEvent, ConfirmationExists, CalendarDate;
    if confirmation.Some? {
      var s1 := Log(cfg, s, env, (ic.index, 1), BreakEvent(cfg, ic, row, drawId, codes)).value;
      assert InsertConfirmation(s1, confirmation.value).Ok?;
    }
  }

  lemma MovedDraw(cfg: Config, s: State, env: Env, at: (nat, nat), d: DrawRequest, target: Status, subject: string, role: string, key: string, payload: Json)
    requires TransitionDraw(cfg, s, env, at, d, target, subject, role, None, key, payload).Ok?
    ensures var (t, next) := TransitionDraw(cfg, s, env, at, d, target, subject, role, None, key, payload).value;
            t == s.(chain := t.chain) && next.id == d.id && next.status == target
  {
    hide AppendTo, MoveEvent, AllowedTransitions, Blocks;
  }

  lemma SavedDraw(s: State, before: DrawRequest, next: DrawRequest)
    requires SaveDraw(s, before, next).Ok?
    ensures var t := SaveDraw(s, before, next).value;
            t == s.(draws := t.draws) && before.id in t.draws && t.draws == s.draws[before.id := t.draws[before.id]]
            && t.draws[before.id].status == next.status && t.draws[before.id].reconciliationStatus == next.reconciliationStatus
  {
    hide RowChecks, LocksKept;
  }

  /** The tables after a settled row. */
  ghost predicate Settles(cfg: Config, s: State, t: State, env: Env, ic: ImportContext, row: CsvRow, i: Instruction, result: RowResult)
    requires i.drawId in s.draws
  {
    var d := s.draws[i.drawId];
    && i.payeeBankAccountId in env.accounts
    && CodesTell(result.codes, row, i, env.accounts[i.payeeBankAccountId])
    && |t.confirmations| == |s.confirmations| + 1 && t.confirmations[..|s.confirmations|] == s.confirmations
    && Confirms(cfg, ic, row, Some(i.id), t.confirmations[|s.confirmations|])
    && Reports(s, t, ic, row, result, Some(d.id), Some(i.id), Some(t.confirmations[|s.confirmations|].id))
    && t.instructions == s.instructions[(row.externalPartnerId, row.settlementReference) := i.(status := ConfirmedByPartner)]
    && d.id in t.draws && t.draws == s.draws[d.id := t.draws[d.id]]
    && t.draws[d.id].status == (if result.codes == [] then Reconciled else ReconciliationException)
    && t.draws[d.id].reconciliationStatus == (if result.codes == [] then MatchedStatus else ExceptionStatus)
  }

  lemma RowSettles(cfg: Config, s: State, env: Env, ic: ImportContext, row: CsvRow, i: Instruction)
    requires i.drawId in s.draws && s.draws[i.drawId].id == i.drawId && i.amount > 0 && SettleRow(cfg, s, env, ic, row, i).Ok?
    ensures var (t, result) := SettleRow(cfg, s, env, ic, row, i).value;
            Settles(cfg, s, t, env, ic, row, i, result)
  {
    hide TransitionDraw, SaveDraw, RowKey, MatchGuard, ConfirmedPayload, ReconciledPayload, ExceptionPayload, Mismatches, CodesTell, Confirms,
         ConfirmationExists, CalendarDate, NewConfirmation;
    var d, c, k := s.draws[i.drawId], NewConfirmation(cfg, env, ic, row, Some(i.id)), (row.externalPartnerId, row.settlementReference);
    var key := RowKey(ic.batchKey, ic.index + 1, "confirmed");
    MovedDraw(cfg, s, env, (ic.index, 1), d, SettlementConfirmed, ic.entrant, ic.role, key, ConfirmedPayload(c.id, row));
    var (s1, confirmed) := TransitionDraw(cfg, s, env, (ic.index, 1), d, SettlementConfirmed, ic.entrant, ic.role, None, key, ConfirmedPayload(c.id, row)).value;
    NewConfirmationIs(cfg, s1, env, ic, row, Some(i.id));
    var s2 := InsertConfirmation(s1, c).value;
    var s3 := s2.(instructions := s2.instructions[k := i.(status := ConfirmedByPartner)]);
    SavedDraw(s3, d, confirmed);
    var s4 := SaveDraw(s3, d, confirmed).value;
    var codes := Mismatches(row, i, env.accounts[i.payeeBankAccountId].accountRef);
    MismatchesTell(row, i, env.accounts[i.payeeBankAccountId]);
    var record := ReconciliationRecord(Some(d.id), Some(i.id), Some(c.id), codes, ic.entrant);
    if codes == [] {
      var last, payload := RowKey(ic.batchKey, ic.index + 1, "reconciled"), ReconciledPayload(c.id, i.id);
      MovedDraw(cfg, s4, env, (ic.index, 2), confirmed, Reconciled, ic.entrant, ic.role, last, payload);
      var (s5, next) := TransitionDraw(cfg, s4, env, (ic.index, 2), confirmed, Reconciled, ic.entrant, ic.role, None, last, payload).value;
      SavedDraw(s5.(records := s5.records + [record]), confirmed, next.(reconciliationStatus := MatchedStatus));
    } else {
      var last, payload := RowKey(ic.batchKey, ic.index + 1, "exception"), ExceptionPayload(c.id, codes);
      MovedDraw(cfg, s4, env, (ic.index, 2), confirmed, ReconciliationException, ic.entrant, ic.role, last, payload);
      var (s5, next) := TransitionDraw(cfg, s4, env, (ic.index, 2), confirmed, ReconciliationException, ic.entrant, ic.role, None, last, payload).value;
      SavedDraw(s5.(records := s5.records + [record]), confirmed, next.(reconciliationStatus := ExceptionStatus));
    }
  }

  ghost predicate AlreadyConfirmed(s: State, row: CsvRow) {
    exists c :: c in s.confirmations && c.partner == row.externalPartnerId && c.reference == row.settlementReference
  }

  /** Some instruction asks for this partner's settlement under this reference, and its draw still waits for the confirmation. */
  ghost predicate Awaited(s: State, row: CsvRow) {
    var k := (row.externalPartnerId, row.settlementReference);
    k in s.instructions && s.instructions[k].drawId in s.draws && s.draws[s.instructions[k].drawId].status == SettlementInstructed
  }

  /**
   * What a row comes to: a repeated reference is an exception and changes nothing but log and records; a settlement never instructed
   * is confirmed on its own and an exception; an awaited one is confirmed and compared, and its draw reconciled or excepted.
   */
  ghost predicate Verdict(cfg: Config, s: State, t: State, env: Env, ic: ImportContext, row: CsvRow, result: RowResult) {
    var k := (row.externalPartnerId, row.settlementReference);
    var known := k in s.instructions;
    if AlreadyConfirmed(s, row) || (known && !Awaited(s, row)) then
      && result.codes == [DuplicateReference] && t == s.(chain := t.chain, records := t.records)
      && Reports(s, t, ic, row, result, if known then Some(s.instructions[k].drawId) else None, if known then Some(s.instructions[k].id) else None, None)
    else if !known then
      && result.codes == [UnapprovedSettlement] && t == s.(chain := t.chain, records := t.records, confirmations := t.confirmations)
      && |t.confirmations| == |s.confirmations| + 1 && t.confirmations[..|s.confirmations|] == s.confirmations
      && Confirms(cfg, ic, row, None, t.confirmations[|s.confirmations|])
      && Reports(s, t, ic, row, result, None, None, Some(t.confirmations[|s.confirmations|].id))
    else
      Settles(cfg, s, t, env, ic, row, s.instructions[k], result)
  }

  lemma ConfirmedMeans(s: State, row: CsvRow)
    ensures ReferenceConfirmed(s.confirmations, row.externalPartnerId, row.settlementReference) <==> AlreadyConfirmed(s, row)
  {
    if c :| c in s.confirmations && c.partner == row.externalPartnerId && c.reference == row.settlementReference {
      var i :| 0 <= i < |s.confirmations| && s.confirmations[i] == c;
    }
  }

  lemma InstructionSound(cfg: Config, s: State, k: (string, string))
    requires Inv(cfg, s) && k in s.instructions
    ensures var i := s.instructions[k];
            i.amount > 0 && i.drawId in s.draws && s.draws[i.drawId].id == i.drawId
  {
  }

  /** Every imported row comes to its verdict. */
  lemma RowVerdict(cfg: Config, s: State, env: Env, ic: ImportContext, row: CsvRow)
    requires Inv(cfg, s) && ImportRow(cfg, s, env, ic, row).Ok?
    ensures var (t, result) := ImportRow(cfg, s, env, ic, row).value;
            Verdict(cfg, s, t, env, ic, row, result)
  {
    hide Inv, ReferenceConfirmed, RecordException, SettleRow, Settles, Confirms, AlreadyConfirmed, NewConfirmation, InsertConfirmation;
    var k := (row.externalPartnerId, row.settlementReference);
    ConfirmedMeans(s, row);
    if k in s.instructions { InstructionSound(cfg, s, k); }
    if AlreadyConfirmed(s, row) || (k in s.instructions && !Awaited(s, row)) {
      var known := k in s.instructions;
      Excepted(cfg, s, env, ic, row, if known then Some(s.instructions[k].drawId) else None, if known then Some(s.instructions[k].id) else None,
               None, [DuplicateReference]);
    } else if k !in s.instructions {
      var c := NewConfirmation(cfg, env, ic, row, None);
      Excepted(cfg, s, env, ic, row, None, None, Some(c), [UnapprovedSettlement]);
      var s1: State :| InsertConfirmation(s1, c).Ok?;
      NewConfirmationIs(cfg, s1, env, ic, row, None);
    } else {
      RowSettles(cfg, s, env, ic, row, s.instructions[k]);
    }
  }

  /** The row is the first about an awaited settlement and agrees with the instruction in amount, currency, payee and date. */
  ghost predicate FullyAgrees(s: State, env: Env, row: CsvRow) {
    && !AlreadyConfirmed(s, row) && Awaited(s, row)
    && var i := s.instructions[(row.externalPartnerId, row.settlementReference)];
       && i.payeeBankAccountId in env.accounts && row.payeeAccountRef == env.accounts[i.payeeBankAccountId].accountRef
       && ParseMinor(row.amountMinor) == Some(i.amount) && row.currency == i.currency
       && !ComesBefore(row.settlementDate, if |i.instructedAt| < 10 then i.instructedAt else i.instructedAt[..10])
  }

  /** A row is reported without codes exactly if it agrees in everything. */
  lemma MatchedExactly(cfg: Config, s: State, t: State, env: Env, ic: ImportContext, row: CsvRow, result: RowResult)
    requires Verdict(cfg, s, t, env, ic, row, result)
    ensures result.codes == [] <==> FullyAgrees(s, env, row)
  {
    hide AlreadyConfirmed, Confirms, Reports, ComesBefore, ParseMinor;
    if result.codes != [] {
      var m := result.codes[0];
      assert m in result.codes;
    }
  }

  // ---------------------------------------------------------------------------
  // Whole imports
  // ---------------------------------------------------------------------------

  /** Row number n is judged on the tables the rows before it left. */
  lemma {:induction false} RowJudgedInTurn(cfg: Config, s: State, env: Env, ic: ImportContext, rows: seq<CsvRow>, n: nat)
    requires MidImport(cfg, s, ic.batchKey, 0) && ImportRows(cfg, s, env, ic, rows).Ok? && n < |rows|
    ensures |ImportRows(cfg, s, env, ic, rows).value.1| == |rows|
    ensures ImportRows(cfg, s, env, ic, rows[..n]).Ok? && ImportRows(cfg, s, env, ic, rows[..n + 1]).Ok?
    ensures Verdict(cfg, ImportRows(cfg, s, env, ic, rows[..n]).value.0, ImportRows(cfg, s, env, ic, rows[..n + 1]).value.0, env,
                    ic.(index := n), rows[n], ImportRows(cfg, s, env, ic, rows).value.1[n])
  {
    hide MidImport, ImportRow, Verdict, Inv, RowsReported;
    var front := rows[..|rows| - 1];
    RowsKeepInv(cfg, s, env, ic, front);
    ResultPerRow(cfg, s, env, ic, front);
    if n < |rows| - 1 {
      RowJudgedInTurn(cfg, s, env, ic, front, n);
      assert front[..n] == rows[..n] && front[..n + 1] == rows[..n + 1];
    } else {
      assert rows[..n] == front && rows[..n + 1] == rows;
      var s1 := ImportRows(cfg, s, env, ic, front).value.0;
      MidKeepsInv(cfg, s1, ic.batchKey, |front|);
      RowVerdict(cfg, s1, env, ic.(index := n), rows[n]);
    }
  }

  lemma {:induction false} ResultPerRow(cfg: Config, s: State, env: Env, ic: ImportContext, rows: seq<CsvRow>)
    requires ImportRows(cfg, s, env, ic, rows).Ok?
    ensures |ImportRows(cfg, s, env, ic, rows).value.1| == |rows|
  {
    hide ImportRow;
    if rows != [] { ResultPerRow(cfg, s, env, ic, rows[..|rows| - 1]); }
  }

  lemma MidKeepsInv(cfg: Config, s: State, batchKey: string, done: nat)
    requires MidImport(cfg, s, batchKey, done)
    ensures Inv(cfg, s)
  {
  }
}
