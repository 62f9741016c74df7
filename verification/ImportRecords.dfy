/** The events an import logs: one for the batch, and for each row a break or the two moves of its draw. */
module ImportRecords {
  import opened Decimal
  import opened CanonicalJson
  import opened CanonicalText
  import opened EventTexts
  import opened Ledger
  import opened DrawMachine
  import opened ConfirmationCsv
  import opened Workflow
  import opened WorkflowLog
  import opened WorkflowApproval
  import opened WorkflowChanges
  import opened WorkflowRuns
  import opened RowVerdicts
  import opened OperationRecords

  /** The import's own keys: batch, row number counted from one, and purpose. */
  function KeyOf(ic: ImportContext, purpose: string): string {
    ic.batchKey + ":" + Numeral(ic.index + 1) + ":" + purpose
  }

  function CodeName(m: Mismatch): string {
    match m
    case Amount => "AMOUNT"
    case Currency => "CURRENCY"
    case Payee => "PAYEE"
    case Date => "DATE"
    case DuplicateReference => "DUPLICATE_REFERENCE"
    case UnapprovedSettlement => "UNAPPROVED_SETTLEMENT"
  }

  /** Codes are logged by name, in their order. */
  lemma CodesLogged(codes: seq<Mismatch>, i: nat)
    requires i < |codes|
    ensures CodesJson(codes).Arr? && |CodesJson(codes).items| == |codes| && CodesJson(codes).items[i] == Str(CodeName(codes[i]))
  {
    var names := seq(|codes|, k requires 0 <= k < |codes| => MismatchName(codes[k]));
    StringsAt(names, i);
    assert names[i] == CodeName(codes[i]);
  }

  /** The event of an exception row: on its draw where there is one, else on partner and reference. */
  function BreakOf(ic: ImportContext, row: CsvRow, drawId: Option<string>): Event {
    var known := drawId != None && drawId.value != "";
    Event("DRAW_RECONCILIATION_BREAK", if known then "DRAW_REQUEST" else "RECONCILIATION_RECORD",
          if known then drawId.value else row.externalPartnerId + ":" + row.settlementReference,
          ic.entrant, TypeOfActor(ic.role), ic.role, None, None, "", "", KeyOf(ic, "break"))
  }

  lemma BreakIs(cfg: Config, ic: ImportContext, row: CsvRow, drawId: Option<string>, codes: seq<Mismatch>)
    requires row.externalPartnerId + ":" + row.settlementReference != ""
    ensures var e := BreakEvent(cfg, ic, row, drawId, codes);
            && e.payload == Some(BreakPayload(codes, row)) && e.idempotencyKey == KeyOf(ic, "break") && e.eventType == "DRAW_RECONCILIATION_BREAK"
            && InputEvent(e) == BreakOf(ic, row, drawId)
  {
    hide BreakPayload, Numeral;
  }

  lemma ExceptionAccepted(cfg: Config, s: State, env: Env, ic: ImportContext, row: CsvRow, drawId: Option<string>,
                          instructionId: Option<string>, confirmation: Option<Confirmation>, codes: seq<Mismatch>)
    requires RecordException(cfg, s, env, ic, row, drawId, instructionId, confirmation, codes).Ok?
    ensures var logged := Log(cfg, s, env, (ic.index, 1), BreakEvent(cfg, ic, row, drawId, codes));
            logged.Ok? && RecordException(cfg, s, env, ic, row, drawId, instructionId, confirmation, codes).value.0.chain == logged.value.chain
  {
    hide Log, BreakEvent, ConfirmationExists, CalendarDate;
  }

  /** An exception row logs one break, with its codes and the row. */
  lemma ExceptionRecords(cfg: Config, s: State, env: Env, ic: ImportContext, row: CsvRow, drawId: Option<string>,
                         instructionId: Option<string>, confirmation: Option<Confirmation>, codes: seq<Mismatch>)
    requires MidImport(cfg, s, ic.batchKey, ic.index)
    requires RecordException(cfg, s, env, ic, row, drawId, instructionId, confirmation, codes).Ok?
    ensures var t := RecordException(cfg, s, env, ic, row, drawId, instructionId, confirmation, codes).value.0;
            Logged(cfg, s.chain, t.chain, env, (ic.index, 1), BreakOf(ic, row, drawId),
                   "{" + Fields([("mismatch_codes", AuditText(CodesJson(codes))), ("row", AuditText(RowJson(row)))]) + "}")
  {
    assert (row.externalPartnerId + ":" + row.settlementReference)[|row.externalPartnerId|] == ':';
    hide *;
    MidKeepsInv(cfg, s, ic.batchKey, ic.index);
    ChainSound(cfg, s);
    BreakUnrecorded(cfg, s, ic);
    ExceptionAccepted(cfg, s, env, ic, row, drawId, instructionId, confirmation, codes);
    BreakIs(cfg, ic, row, drawId, codes);
    BreakPrints(codes, row);
    LogAdds(cfg, s, env, (ic.index, 1), BreakEvent(cfg, ic, row, drawId, codes), BreakPayload(codes, row));
  }

  lemma BreakUnrecorded(cfg: Config, s: State, ic: ImportContext)
    requires MidImport(cfg, s, ic.batchKey, ic.index)
    ensures Unrecorded(s.chain.rows, KeyOf(ic, "break"), "DRAW_RECONCILIATION_BREAK")
    ensures Unrecorded(s.chain.rows, KeyOf(ic, "confirmed"), "DRAW_SETTLEMENT_CONFIRMED")
    ensures Unrecorded(s.chain.rows, KeyOf(ic, "reconciled"), "DRAW_RECONCILED")
    ensures Unrecorded(s.chain.rows, KeyOf(ic, "exception"), "DRAW_RECONCILIATION_BREAK")
  {
    hide Unprocessed, Unrecorded, Inv, Numeral;
    UnprocessedIsUnrecorded(s.chain.rows, ic.batchKey, ic.index, "break", "DRAW_RECONCILIATION_BREAK");
    UnprocessedIsUnrecorded(s.chain.rows, ic.batchKey, ic.index, "confirmed", "DRAW_SETTLEMENT_CONFIRMED");
    UnprocessedIsUnrecorded(s.chain.rows, ic.batchKey, ic.index, "reconciled", "DRAW_RECONCILED");
    UnprocessedIsUnrecorded(s.chain.rows, ic.batchKey, ic.index, "exception", "DRAW_RECONCILIATION_BREAK");
  }

  function FirstMove(cfg: Config, s: State, env: Env, ic: ImportContext, row: CsvRow, i: Instruction): Result<(State, DrawRequest)>
    requires i.drawId in s.draws
  {
    TransitionDraw(cfg, s, env, (ic.index, 1), s.draws[i.drawId], SettlementConfirmed, ic.entrant, ic.role, None,
                   RowKey(ic.batchKey, ic.index + 1, "confirmed"), ConfirmedPayload(env.id(ic.index, 0), row))
  }

  function SecondMove(cfg: Config, s: State, env: Env, ic: ImportContext, i: Instruction, confirmed: DrawRequest, codes: seq<Mismatch>): Result<(State, DrawRequest)> {
    if codes == [] then
      TransitionDraw(cfg, s, env, (ic.index, 2), confirmed, Reconciled, ic.entrant, ic.role, None,
                     RowKey(ic.batchKey, ic.index + 1, "reconciled"), ReconciledPayload(env.id(ic.index, 0), i.id))
    else
      TransitionDraw(cfg, s, env, (ic.index, 2), confirmed, ReconciliationException, ic.entrant, ic.role, None,
                     RowKey(ic.batchKey, ic.index + 1, "exception"), ExceptionPayload(env.id(ic.index, 0), codes))
  }

  lemma SettleAccepted(cfg: Config, s: State, env: Env, ic: ImportContext, row: CsvRow, i: Instruction) returns (s4: State)
    requires i.drawId in s.draws && SettleRow(cfg, s, env, ic, row, i).Ok?
    ensures FirstMove(cfg, s, env, ic, row, i).Ok? && s4.chain == FirstMove(cfg, s, env, ic, row, i).value.0.chain
    ensures var (t, result) := SettleRow(cfg, s, env, ic, row, i).value;
            var second := SecondMove(cfg, s4, env, ic, i, FirstMove(cfg, s, env, ic, row, i).value.1, result.codes);
            second.Ok? && t.chain == second.value.0.chain
  {
    SaveKeepsChain();
    ConfirmationId(cfg, env, ic, row, i);
    hide TransitionDraw, SaveDraw, RowKey, MatchGuard, ConfirmedPayload, ReconciledPayload, ExceptionPayload, Mismatches, NewConfirmation,
         ConfirmationExists, CalendarDate;
    var d, c, k := s.draws[i.drawId], NewConfirmation(cfg, env, ic, row, Some(i.id)), (row.externalPartnerId, row.settlementReference);
    var (s1, confirmed) := FirstMove(cfg, s, env, ic, row, i).value;
    var s2 := InsertConfirmation(s1, c).value;
    s4 := SaveDraw(s2.(instructions := s2.instructions[k := i.(status := ConfirmedByPartner)]), d, confirmed).value;
  }

  lemma ConfirmationId(cfg: Config, env: Env, ic: ImportContext, row: CsvRow, i: Instruction)
    ensures NewConfirmation(cfg, env, ic, row, Some(i.id)).id == env.id(ic.index, 0)
  {
  }

  /** The first move of a settled row, from awaited to confirmed, with the confirmation and the row. */
  ghost predicate ConfirmationLogged(cfg: Config, before: Chain, after: Chain, env: Env, ic: ImportContext, row: CsvRow, d: DrawRequest) {
    Logged(cfg, before, after, env, (ic.index, 1),
           MoveEventOf("DRAW_SETTLEMENT_CONFIRMED", d.id, ic.entrant, ic.role, "SETTLEMENT_INSTRUCTED", "SETTLEMENT_CONFIRMED",
                       TextOr(d.lockedPolicyVersion), TextOr(d.lockedManifestHash), KeyOf(ic, "confirmed")),
           "{" + Fields([("row", AuditText(RowJson(row))), ("settlement_confirmation_id", Quote(env.id(ic.index, 0)))]) + "}")
  }

  /** The second: to RECONCILED with the instruction, or to RECONCILIATION_EXCEPTION with the codes. */
  ghost predicate OutcomeLogged(cfg: Config, before: Chain, after: Chain, env: Env, ic: ImportContext, d: DrawRequest, i: Instruction, codes: seq<Mismatch>) {
    if codes == [] then
      Logged(cfg, before, after, env, (ic.index, 2),
             MoveEventOf("DRAW_RECONCILED", d.id, ic.entrant, ic.role, "SETTLEMENT_CONFIRMED", "RECONCILED",
                         TextOr(d.lockedPolicyVersion), TextOr(d.lockedManifestHash), KeyOf(ic, "reconciled")),
             "{" + Fields([("settlement_confirmation_id", Quote(env.id(ic.index, 0))), ("settlement_instruction_id", Quote(i.id))]) + "}")
    else
      Logged(cfg, before, after, env, (ic.index, 2),
             MoveEventOf("DRAW_RECONCILIATION_BREAK", d.id, ic.entrant, ic.role, "SETTLEMENT_CONFIRMED", "RECONCILIATION_EXCEPTION",
                         TextOr(d.lockedPolicyVersion), TextOr(d.lockedManifestHash), KeyOf(ic, "exception")),
             "{" + Fields([("mismatch_codes", AuditText(CodesJson(codes))), ("settlement_confirmation_id", Quote(env.id(ic.index, 0)))]) + "}")
  }

  lemma MoveTexts()
    ensures EventForTarget(SettlementConfirmed) == "DRAW_SETTLEMENT_CONFIRMED" && EventForTarget(Reconciled) == "DRAW_RECONCILED"
    ensures EventForTarget(ReconciliationException) == "DRAW_RECONCILIATION_BREAK"
    ensures StatusName(SettlementInstructed) == "SETTLEMENT_INSTRUCTED" && StatusName(SettlementConfirmed) == "SETTLEMENT_CONFIRMED"
    ensures StatusName(Reconciled) == "RECONCILED" && StatusName(ReconciliationException) == "RECONCILIATION_EXCEPTION"
  {
  }

  lemma FirstMoveLogs(cfg: Config, s: State, env: Env, ic: ImportContext, row: CsvRow, i: Instruction)
    requires MidImport(cfg, s, ic.batchKey, ic.index) && i.drawId in s.draws && s.draws[i.drawId].status == SettlementInstructed
    requires FirstMove(cfg, s, env, ic, row, i).Ok?
    ensures var (t, next) := FirstMove(cfg, s, env, ic, row, i).value;
            && Sound(cfg.sha, t.chain) && ConfirmationLogged(cfg, s.chain, t.chain, env, ic, row, s.draws[i.drawId])
            && Unrecorded(t.chain.rows, KeyOf(ic, "reconciled"), "DRAW_RECONCILED")
            && Unrecorded(t.chain.rows, KeyOf(ic, "exception"), "DRAW_RECONCILIATION_BREAK")
            && next == s.draws[i.drawId].(status := SettlementConfirmed, submittedAt := next.submittedAt)
  {
    MoveTexts();
    RowKeyIs(ic);
    var d := s.draws[i.drawId];
    assert d.status == SettlementInstructed;
    hide *;
    MidKeepsInv(cfg, s, ic.batchKey, ic.index);
    ChainSound(cfg, s);
    BreakUnrecorded(cfg, s, ic);
    var key, payload := RowKey(ic.batchKey, ic.index + 1, "confirmed"), ConfirmedPayload(env.id(ic.index, 0), row);
    assert FirstMove(cfg, s, env, ic, row, i) == TransitionDraw(cfg, s, env, (ic.index, 1), d, SettlementConfirmed, ic.entrant, ic.role, None, key, payload) by {
      FirstMoveIs(cfg, s, env, ic, row, i);
    }
    MoveAdds(cfg, s, env, (ic.index, 1), d, SettlementConfirmed, ic.entrant, ic.role, None, key, payload);
    TransitionExtends(cfg, s, env, (ic.index, 1), d, SettlementConfirmed, ic.entrant, ic.role, None, key, payload);
    MoveNamed(d, SettlementConfirmed, "DRAW_SETTLEMENT_CONFIRMED", ic.entrant, ic.role, key);
    ConfirmedPrints(env.id(ic.index, 0), row);
    var t := FirstMove(cfg, s, env, ic, row, i).value.0;
    LoggedConfirmation(cfg, s.chain, t.chain, env, ic, row, d);
    OtherStaysUnrecorded(cfg, s.chain, t.chain, d, ic, key);
  }

  lemma FirstMoveIs(cfg: Config, s: State, env: Env, ic: ImportContext, row: CsvRow, i: Instruction)
    requires i.drawId in s.draws
    ensures FirstMove(cfg, s, env, ic, row, i)
         == TransitionDraw(cfg, s, env, (ic.index, 1), s.draws[i.drawId], SettlementConfirmed, ic.entrant, ic.role, None,
                           RowKey(ic.batchKey, ic.index + 1, "confirmed"), ConfirmedPayload(env.id(ic.index, 0), row))
  {
    hide TransitionDraw, RowKey, ConfirmedPayload;
  }

  lemma LoggedConfirmation(cfg: Config, before: Chain, after: Chain, env: Env, ic: ImportContext, row: CsvRow, d: DrawRequest)
    requires Logged(cfg, before, after, env, (ic.index, 1),
                    MoveEventOf("DRAW_SETTLEMENT_CONFIRMED", d.id, ic.entrant, ic.role, "SETTLEMENT_INSTRUCTED", "SETTLEMENT_CONFIRMED",
                                TextOr(d.lockedPolicyVersion), TextOr(d.lockedManifestHash), KeyOf(ic, "confirmed")),
                    "{" + Fields([("row", AuditText(RowJson(row))), ("settlement_confirmation_id", Quote(env.id(ic.index, 0)))]) + "}")
    ensures ConfirmationLogged(cfg, before, after, env, ic, row, d)
  {
    hide Logged;
  }

  lemma RowKeyIs(ic: ImportContext)
    ensures RowKey(ic.batchKey, ic.index + 1, "confirmed") == KeyOf(ic, "confirmed")
    ensures RowKey(ic.batchKey, ic.index + 1, "reconciled") == KeyOf(ic, "reconciled")
    ensures RowKey(ic.batchKey, ic.index + 1, "exception") == KeyOf(ic, "exception")
  {
    hide Numeral;
  }

  lemma OtherStaysUnrecorded(cfg: Config, before: Chain, after: Chain, d: DrawRequest, ic: ImportContext, key: string)
    requires Extended(cfg, before, after, MoveEntry(d, SettlementConfirmed, "DRAW_SETTLEMENT_CONFIRMED", key, ic.entrant))
    requires Unrecorded(before.rows, KeyOf(ic, "reconciled"), "DRAW_RECONCILED")
    requires Unrecorded(before.rows, KeyOf(ic, "exception"), "DRAW_RECONCILIATION_BREAK")
    ensures Unrecorded(after.rows, KeyOf(ic, "reconciled"), "DRAW_RECONCILED")
    ensures Unrecorded(after.rows, KeyOf(ic, "exception"), "DRAW_RECONCILIATION_BREAK")
  {
    var e := MoveEntry(d, SettlementConfirmed, "DRAW_SETTLEMENT_CONFIRMED", key, ic.entrant);
    assert |"DRAW_SETTLEMENT_CONFIRMED"| == 25 && |"DRAW_RECONCILIATION_BREAK"| == 25 && |"DRAW_RECONCILED"| == 15;
    assert "DRAW_SETTLEMENT_CONFIRMED"[5] == 'S' && "DRAW_RECONCILIATION_BREAK"[5] == 'R';
    hide Extended, Unrecorded, KeyOf, StatusName;
    StillUnrecorded(cfg, before, after, e, KeyOf(ic, "reconciled"), "DRAW_RECONCILED");
    StillUnrecorded(cfg, before, after, e, KeyOf(ic, "exception"), "DRAW_RECONCILIATION_BREAK");
  }

  lemma SecondMoveLogs(cfg: Config, s: State, env: Env, ic: ImportContext, i: Instruction, d: DrawRequest, confirmed: DrawRequest, codes: seq<Mismatch>)
    requires Sound(cfg.sha, s.chain) && SecondMove(cfg, s, env, ic, i, confirmed, codes).Ok?
    requires Unrecorded(s.chain.rows, KeyOf(ic, "reconciled"), "DRAW_RECONCILED")
    requires Unrecorded(s.chain.rows, KeyOf(ic, "exception"), "DRAW_RECONCILIATION_BREAK")
    requires confirmed == d.(status := SettlementConfirmed, submittedAt := confirmed.submittedAt)
    ensures OutcomeLogged(cfg, s.chain, SecondMove(cfg, s, env, ic, i, confirmed, codes).value.0.chain, env, ic, d, i, codes)
  {
    MoveTexts();
    RowKeyIs(ic);
    var cid := env.id(ic.index, 0);
    hide TransitionDraw, RowKey, ReconciledPayload, ExceptionPayload, EventForTarget, StatusName, Logged, Unrecorded, Fields, Quote, AuditText, CodesJson,
         KeyOf, TextOr, Linked;
    if codes == [] {
      var key, payload := RowKey(ic.batchKey, ic.index + 1, "reconciled"), ReconciledPayload(cid, i.id);
      MoveAdds(cfg, s, env, (ic.index, 2), confirmed, Reconciled, ic.entrant, ic.role, None, key, payload);
      MoveNamed(confirmed, Reconciled, "DRAW_RECONCILED", ic.entrant, ic.role, key);
      ReconciledPrints(cid, i.id);
    } else {
      var key, payload := RowKey(ic.batchKey, ic.index + 1, "exception"), ExceptionPayload(cid, codes);
      MoveAdds(cfg, s, env, (ic.index, 2), confirmed, ReconciliationException, ic.entrant, ic.role, None, key, payload);
      MoveNamed(confirmed, ReconciliationException, "DRAW_RECONCILIATION_BREAK", ic.entrant, ic.role, key);
      ExceptionPrints(cid, codes);
    }
  }

  /** A settled row logs two moves: the confirmation with the row, then the outcome with the codes its result reports. */
  lemma SettleRecords(cfg: Config, s: State, env: Env, ic: ImportContext, row: CsvRow, i: Instruction) returns (mid: Chain)
    requires MidImport(cfg, s, ic.batchKey, ic.index) && i.drawId in s.draws && s.draws[i.drawId].status == SettlementInstructed
    requires SettleRow(cfg, s, env, ic, row, i).Ok?
    ensures var (t, result) := SettleRow(cfg, s, env, ic, row, i).value;
            && ConfirmationLogged(cfg, s.chain, mid, env, ic, row, s.draws[i.drawId])
            && OutcomeLogged(cfg, mid, t.chain, env, ic, s.draws[i.drawId], i, result.codes)
  {
    assert s.draws[i.drawId].status == SettlementInstructed;
    hide *;
    var s4 := SettleAccepted(cfg, s, env, ic, row, i);
    FirstMoveLogs(cfg, s, env, ic, row, i);
    mid := s4.chain;
    var codes := SettleRow(cfg, s, env, ic, row, i).value.1.codes;
    SecondMoveLogs(cfg, s4, env, ic, i, s.draws[i.drawId], FirstMove(cfg, s, env, ic, row, i).value.1, codes);
  }

  /** An accepted import first logs the batch: its rows and who confirmed them. */
  lemma ImportRecordsBatch(cfg: Config, s: State, env: Env, entrant: string, confirmer: string, batchKey: string, first: string, second: string)
    returns (role: string, s1: State)
    requires Inv(cfg, s) && ImportCsv(cfg, s, env, entrant, confirmer, batchKey, first, second).Ok?
    ensures ParseConfirmationCsv(first).Some? && ActsAs(env, entrant, CSV_ENTRY_ROLES, [], role) && s1 == s.(chain := s1.chain)
    ensures var rows := ParseConfirmationCsv(first).value;
            && ImportCsv(cfg, s, env, entrant, confirmer, batchKey, first, second)
               == ImportRows(cfg, s1, env, ImportContext(entrant, confirmer, role, batchKey, 0), rows)
            && Logged(cfg, s.chain, s1.chain, env, (|rows|, 1),
                      Event("CSV_BATCH_IMPORTED", "SETTLEMENT_CONFIRMATION", batchKey, entrant, "USER", role, None, None, "", "", batchKey),
                      "{" + Fields([("rows", AuditText(Arr(RowsJson(rows)))), ("second_entry_subject", Quote(confirmer))]) + "}")
  {
    ImportLogsFirst(cfg, s, env, entrant, confirmer, batchKey, first, second);
    hide *;
    ChainSound(cfg, s);
    var rows := ParseConfirmationCsv(first).value;
    role := RequireRole(env, entrant, CSV_ENTRY_ROLES, []).value;
    RoleIsFirst(env, entrant, CSV_ENTRY_ROLES, []);
    EntryRoleIsUser(role);
    UnusedIsUnrecorded(s.chain.rows, batchKey, "CSV_BATCH_IMPORTED");
    var payload := ImportedPayload(rows, confirmer);
    PlainIs(cfg, entrant, role, "CSV_BATCH_IMPORTED", "SETTLEMENT_CONFIRMATION", batchKey, batchKey, payload);
    ImportedPrints(rows, confirmer);
    var input := PlainEvent(cfg, entrant, role, "CSV_BATCH_IMPORTED", "SETTLEMENT_CONFIRMATION", batchKey, batchKey, payload);
    LogAdds(cfg, s, env, (|rows|, 1), input, payload);
    s1 := Log(cfg, s, env, (|rows|, 1), input).value;
  }

  lemma ImportLogsFirst(cfg: Config, s: State, env: Env, entrant: string, confirmer: string, batchKey: string, first: string, second: string)
    requires ImportCsv(cfg, s, env, entrant, confirmer, batchKey, first, second).Ok?
    ensures ParseConfirmationCsv(first).Some? && RequireRole(env, entrant, CSV_ENTRY_ROLES, []).Ok? && !KeyUsed(s.chain.rows, batchKey)
    ensures var rows, role := ParseConfirmationCsv(first).value, RequireRole(env, entrant, CSV_ENTRY_ROLES, []).value;
            var logged := Log(cfg, s, env, (|rows|, 1), PlainEvent(cfg, entrant, role, "CSV_BATCH_IMPORTED", "SETTLEMENT_CONFIRMATION", batchKey, batchKey,
                                                                   ImportedPayload(rows, confirmer)));
            logged.Ok? && ImportCsv(cfg, s, env, entrant, confirmer, batchKey, first, second)
                          == ImportRows(cfg, logged.value, env, ImportContext(entrant, confirmer, role, batchKey, 0), rows)
  {
    hide Log, RequireRole, ImportRows, ImportedPayload, KeyUsed, ParseConfirmationCsv, AuditText, RowsJson;
  }
}
