/** Every run of the workflow: the invariant, and what follows from it for each reachable state. */
module WorkflowRuns {
  import opened CanonicalJson
  import opened Ledger
  import opened DrawMachine
  import opened ConfirmationCsv
  import opened Workflow
  import opened WorkflowChanges
  import opened WorkflowLog
  import opened WorkflowEvidence
  import opened WorkflowApproval
  import opened WorkflowSettlement

  ghost predicate Inv(cfg: Config, s: State) {
    LogInv(cfg, s) && EvidenceInv(cfg, s) && ApprovalInv(cfg, s) && SettlementInv(s)
  }

  lemma InitialInv(cfg: Config)
    ensures Inv(cfg, INITIAL)
  {
    EmptyIsSound(cfg.sha);
    assert forall drawId, documentType :: Versions([], drawId, documentType) == [];
  }

  lemma StoredUnderTheirIds(cfg: Config, s: State)
    requires LogInv(cfg, s)
    ensures Keyed(s.draws) && CreationsKeyed(s.chain.rows, s.draws) && StagingsKeyed(s.chain.rows, s.batches)
  {
  }

  lemma ExtendedIsGrown(cfg: Config, before: Chain, after: Chain, entry: Entry)
    requires Extended(cfg, before, after, entry)
    ensures Grown(before, after)
  {
    hide Sound;
  }

  // ---------------------------------------------------------------------------
  // One operation
  // ---------------------------------------------------------------------------

  lemma CreateKeepsInv(cfg: Config, s: State, env: Env, subject: string, input: DraftInput)
    requires Inv(cfg, s) && CreateDraft(cfg, s, env, subject, input).Ok?
    ensures Inv(cfg, CreateDraft(cfg, s, env, subject, input).value)
  {
    hide LogInv, EvidenceInv, ApprovalInv, SettlementInv, CreateChange, DrawWithKey, CreateDraft;
    StoredUnderTheirIds(cfg, s);
    CreateChanges(cfg, s, env, subject, input);
    var t := CreateDraft(cfg, s, env, subject, input).value;
    if !DrawWithKey(s.draws, input.idempotencyKey) {
      CreateKeepsLog(cfg, s, t, env, subject, input);
      CreateKeepsEvidence(cfg, s, t, env, subject, input);
      CreateKeepsApproval(cfg, s, t, env, subject, input);
      CreateKeepsSettlement(cfg, s, t, env, subject, input);
    }
  }

  lemma UploadKeepsInv(cfg: Config, s: State, env: Env, subject: string, input: UploadInput)
    requires Inv(cfg, s) && UploadEvidence(cfg, s, env, subject, input).Ok?
    ensures Inv(cfg, UploadEvidence(cfg, s, env, subject, input).value)
  {
    hide LogInv, EvidenceInv, ApprovalInv, SettlementInv, UploadEvidence, KeyUsed;
    StoredUnderTheirIds(cfg, s);
    UploadChanges(cfg, s, env, subject, input);
    var t := UploadEvidence(cfg, s, env, subject, input).value;
    if !KeyUsed(s.chain.rows, input.idempotencyKey) {
      UploadKeepsLog(cfg, s, t, env, subject, input);
      UploadKeepsEvidence(cfg, s, t, env, subject, input);
      UploadKeepsApproval(cfg, s, t, env, subject, input);
      hide NewDocument, Extended, DocumentExists;
      ElsewhereKeepsSettlement(s, t);
    }
  }

  lemma VerifyKeepsInv(cfg: Config, s: State, env: Env, subject: string, documentId: string, key: string)
    requires Inv(cfg, s) && VerifyEvidence(cfg, s, env, subject, documentId, key).Ok?
    ensures Inv(cfg, VerifyEvidence(cfg, s, env, subject, documentId, key).value)
  {
    hide LogInv, EvidenceInv, ApprovalInv, SettlementInv, VerifyEvidence, KeyUsed;
    StoredUnderTheirIds(cfg, s);
    VerifyChanges(cfg, s, env, subject, documentId, key);
    var t := VerifyEvidence(cfg, s, env, subject, documentId, key).value;
    if !KeyUsed(s.chain.rows, key) {
      VerifyKeepsLog(cfg, s, t, subject, documentId, key);
      VerifyKeepsEvidence(cfg, s, t, subject, documentId, key);
      VerifyKeepsApproval(cfg, s, t, subject, documentId, key);
      hide FindDocument, Extended, VerificationOf;
      ElsewhereKeepsSettlement(s, t);
    }
  }

  lemma SubmitKeepsInv(cfg: Config, s: State, env: Env, subject: string, drawId: string, key: string)
    requires Inv(cfg, s) && Submit(cfg, s, env, subject, drawId, key).Ok?
    ensures Inv(cfg, Submit(cfg, s, env, subject, drawId, key).value)
  {
    hide LogInv, EvidenceInv, ApprovalInv, SettlementInv, Submit, KeyUsed, SubmitChange;
    StoredUnderTheirIds(cfg, s);
    SubmitChanges(cfg, s, env, subject, drawId, key);
    var t := Submit(cfg, s, env, subject, drawId, key).value;
    if !KeyUsed(s.chain.rows, key) {
      SubmitKeepsLog(cfg, s, t, env, subject, drawId, key);
      SubmitKeepsEvidence(cfg, s, t, env, subject, drawId, key);
      SubmitKeepsApproval(cfg, s, t, env, subject, drawId, key);
      SubmitKeepsSettlement(cfg, s, t, env, subject, drawId, key);
    }
  }

  lemma EvaluateKeepsInv(cfg: Config, s: State, env: Env, subject: string, drawId: string, key: string)
    requires Inv(cfg, s) && Evaluate(cfg, s, env, subject, drawId, key).Ok?
    ensures Inv(cfg, Evaluate(cfg, s, env, subject, drawId, key).value)
  {
    hide LogInv, EvidenceInv, ApprovalInv, SettlementInv, Evaluate, KeyUsed, EvaluateChange;
    StoredUnderTheirIds(cfg, s);
    EvaluateChanges(cfg, s, env, subject, drawId, key);
    var t := Evaluate(cfg, s, env, subject, drawId, key).value;
    if !KeyUsed(s.chain.rows, key) {
      EvaluateKeepsLog(cfg, s, t, env, subject, drawId, key);
      EvaluateKeepsEvidence(cfg, s, t, env, subject, drawId, key);
      EvaluateKeepsApproval(cfg, s, t, env, subject, drawId, key);
      EvaluateKeepsSettlement(cfg, s, t, env, subject, drawId, key);
    }
  }

  lemma EvaluateKeepsEvidence(cfg: Config, s: State, t: State, env: Env, subject: string, drawId: string, key: string)
    requires EvidenceInv(cfg, s) && Keyed(s.draws) && EvaluateChange(cfg, s, t, env, subject, drawId, key)
    ensures EvidenceInv(cfg, t)
  {
    var d := s.draws[drawId];
    ExtendedIsGrown(cfg, s.chain, t.chain, MoveEntry(d, UnderReview, "DRAW_POLICY_EVALUATED", key, subject));
    hide EvidenceInv, KeyUsed, ManifestComplete, RowChecks, Extended, Grown;
    SaveKeepsEvidence(cfg, s, t, t.draws[drawId]);
  }

  lemma ApproveKeepsEvidence(cfg: Config, s: State, t: State, env: Env, subject: string, input: ApproveInput)
    requires EvidenceInv(cfg, s) && Keyed(s.draws) && ApproveChange(cfg, s, t, env, subject, input)
    ensures EvidenceInv(cfg, t)
  {
    var d := s.draws[input.drawId];
    hide EvidenceInv, KeyUsed, DecisionMade, BindingHash, Cleared, RowChecks, Extended, Grown, ParseMinor, StatusName;
    if t.draws == s.draws {
      ExtendedIsGrown(cfg, s.chain, t.chain, Entry("APPROVAL_RECORDED", d.id, None, None, input.idempotencyKey, subject));
      LogOnlyKeepsEvidence(cfg, s, t);
    } else {
      ExtendedIsGrown(cfg, s.chain, t.chain, MoveEntry(d, Approved, "DRAW_APPROVED", input.idempotencyKey, subject));
      SaveKeepsEvidence(cfg, s, t, t.draws[input.drawId]);
    }
  }

  lemma ApproveKeepsInv(cfg: Config, s: State, env: Env, subject: string, input: ApproveInput)
    requires Inv(cfg, s) && Approve(cfg, s, env, subject, input).Ok?
    ensures Inv(cfg, Approve(cfg, s, env, subject, input).value)
  {
    hide LogInv, EvidenceInv, ApprovalInv, SettlementInv, Approve, KeyUsed, ApproveChange;
    StoredUnderTheirIds(cfg, s);
    ApproveChanges(cfg, s, env, subject, input);
    var t := Approve(cfg, s, env, subject, input).value;
    if !KeyUsed(s.chain.rows, input.idempotencyKey) {
      ApproveKeepsLog(cfg, s, t, env, subject, input);
      ApproveKeepsEvidence(cfg, s, t, env, subject, input);
      ApproveKeepsApproval(cfg, s, t, env, subject, input);
      ApproveKeepsSettlement(cfg, s, t, env, subject, input);
    }
  }

  lemma InstructKeepsEvidence(cfg: Config, s: State, t: State, env: Env, subject: string, input: InstructInput)
    requires EvidenceInv(cfg, s) && Keyed(s.draws) && InstructChange(cfg, s, t, env, subject, input)
    ensures EvidenceInv(cfg, t)
  {
    var d := s.draws[input.drawId];
    ExtendedIsGrown(cfg, s.chain, t.chain, MoveEntry(d, SettlementInstructed, "DRAW_SETTLEMENT_INSTRUCTED", input.idempotencyKey, subject));
    hide EvidenceInv, KeyUsed, Decided, RowChecks, Extended, Grown, PayeeVerified, OpenHoldOn;
    SaveKeepsEvidence(cfg, s, t, t.draws[input.drawId]);
  }

  lemma InstructKeepsInv(cfg: Config, s: State, env: Env, subject: string, input: InstructInput)
    requires Inv(cfg, s) && Instruct(cfg, s, env, subject, input).Ok?
    ensures Inv(cfg, Instruct(cfg, s, env, subject, input).value)
  {
    hide LogInv, EvidenceInv, ApprovalInv, SettlementInv, Instruct, KeyUsed, InstructChange;
    StoredUnderTheirIds(cfg, s);
    InstructChanges(cfg, s, env, subject, input);
    var t := Instruct(cfg, s, env, subject, input).value;
    if !KeyUsed(s.chain.rows, input.idempotencyKey) {
      InstructKeepsLog(cfg, s, t, env, subject, input);
      InstructKeepsEvidence(cfg, s, t, env, subject, input);
      InstructKeepsApproval(cfg, s, t, env, subject, input);
      InstructKeepsSettlement(cfg, s, t, env, subject, input);
    }
  }

  lemma StageKeepsInv(cfg: Config, s: State, env: Env, subject: string, batchKey: string, csv: string)
    requires Inv(cfg, s) && StageCsv(cfg, s, env, subject, batchKey, csv).Ok?
    ensures Inv(cfg, StageCsv(cfg, s, env, subject, batchKey, csv).value)
  {
    hide LogInv, EvidenceInv, ApprovalInv, SettlementInv, StageCsv, Extended, Grown, Digest;
    StoredUnderTheirIds(cfg, s);
    StageChanges(cfg, s, env, subject, batchKey, csv);
    var t := StageCsv(cfg, s, env, subject, batchKey, csv).value;
    if batchKey !in s.batches {
      StageKeepsLog(cfg, s, t, subject, batchKey, csv);
      ExtendedIsGrown(cfg, s.chain, t.chain, Entry("CSV_BATCH_STAGED", batchKey, None, None, batchKey + ":staged", subject));
      LogOnlyKeepsEvidence(cfg, s, t);
      ElsewhereKeepsApproval(cfg, s, t);
      ElsewhereKeepsSettlement(s, t);
    }
  }

  // ---------------------------------------------------------------------------
  // Importing a batch
  // ---------------------------------------------------------------------------

  /** The invariant in the middle of an import. */
  ghost predicate MidImport(cfg: Config, s: State, batchKey: string, done: nat) {
    Inv(cfg, s) && Importing(cfg, s, batchKey, done)
  }

  /** What one row leaves: one more record, which is what its result reports. */
  ghost predicate RowReported(s: State, t: State, ic: ImportContext, row: CsvRow, result: RowResult) {
    |t.records| == |s.records| + 1 && s.records == t.records[..|s.records|]
    && result.line == ic.index + 2 && result.partner == row.externalPartnerId && result.reference == row.settlementReference
    && result.codes == t.records[|s.records|].codes && result.drawId == t.records[|s.records|].drawId
  }

  lemma ExceptionKeepsInv(cfg: Config, s: State, env: Env, ic: ImportContext, row: CsvRow, drawId: Option<string>,
                          instructionId: Option<string>, confirmation: Option<Confirmation>, codes: seq<Mismatch>)
    requires MidImport(cfg, s, ic.batchKey, ic.index) && codes != []
    requires RecordException(cfg, s, env, ic, row, drawId, instructionId, confirmation, codes).Ok?
    requires confirmation.Some? ==> !ReferenceConfirmed(s.confirmations, confirmation.value.partner, confirmation.value.reference)
    ensures var (t, result) := RecordException(cfg, s, env, ic, row, drawId, instructionId, confirmation, codes).value;
            MidImport(cfg, t, ic.batchKey, ic.index + 1) && RowReported(s, t, ic, row, result)
  {
    hide LogInv, EvidenceInv, ApprovalInv, SettlementInv, RecordException, Extended, Unprocessed, KeyUsed, ReferenceConfirmed,
         ConfirmationExists, RowKey;
    ExceptionChanges(cfg, s, env, ic, row, drawId, instructionId, confirmation, codes);
    var t := RecordException(cfg, s, env, ic, row, drawId, instructionId, confirmation, codes).value.0;
    ExceptionKeepsLog(cfg, s, t, ic, row, drawId, instructionId, confirmation, codes);
    ExceptionKeepsSettlement(cfg, s, t, ic, row, drawId, instructionId, confirmation, codes);
    BreakIsGrown(cfg, s.chain, t.chain, RowKey(ic.batchKey, ic.index + 1, "break"), ic.entrant);
    hide Grown, BreakLogged;
    LogOnlyKeepsEvidence(cfg, s, t);
    ElsewhereKeepsApproval(cfg, s, t);
  }

  lemma BreakIsGrown(cfg: Config, before: Chain, after: Chain, key: string, actor: string)
    requires BreakLogged(cfg, before, after, key, actor)
    ensures Grown(before, after)
  {
    hide Sound;
  }

  lemma TwiceMovedIsGrown(cfg: Config, before: Chain, after: Chain, d: DrawRequest, target: Status, ic: ImportContext, suffix: string)
    requires TwiceMoved(cfg, before, after, d, target, ic, suffix)
    ensures Grown(before, after)
  {
    hide Sound, RowKey, StatusName, EventForTarget;
    var first := MoveEntry(d, SettlementConfirmed, "DRAW_SETTLEMENT_CONFIRMED", RowKey(ic.batchKey, ic.index + 1, "confirmed"), ic.entrant);
    var second := MoveEntry(d.(status := SettlementConfirmed), target, EventForTarget(target), RowKey(ic.batchKey, ic.index + 1, suffix), ic.entrant);
    var mid :| ExtendedTwice(cfg, before, mid, after, first, second);
  }

  lemma SettleKeepsEvidence(cfg: Config, s: State, t: State, env: Env, ic: ImportContext, row: CsvRow)
    requires EvidenceInv(cfg, s) && Keyed(s.draws) && SettleChange(cfg, s, t, env, ic, row)
    ensures EvidenceInv(cfg, t)
  {
    var i := s.instructions[(row.externalPartnerId, row.settlementReference)];
    var d := s.draws[i.drawId];
    hide EvidenceInv, NewConfirmation, Mismatches, RowChecks, ConfirmationExists, TwiceMoved, Grown;
    var next := t.draws[d.id];
    TwiceMovedIsGrown(cfg, s.chain, t.chain, d, next.status, ic, if next.status.Reconciled? then "reconciled" else "exception");
    SaveKeepsEvidence(cfg, s, t, next);
  }

  lemma SettleKeepsInv(cfg: Config, s: State, env: Env, ic: ImportContext, row: CsvRow)
    requires MidImport(cfg, s, ic.batchKey, ic.index)
    requires !ReferenceConfirmed(s.confirmations, row.externalPartnerId, row.settlementReference)
    requires var k := (row.externalPartnerId, row.settlementReference);
             k in s.instructions && s.instructions[k].drawId in s.draws
             && s.draws[s.instructions[k].drawId].status.SettlementInstructed?
             && SettleRow(cfg, s, env, ic, row, s.instructions[k]).Ok?
    ensures var k := (row.externalPartnerId, row.settlementReference);
            var (t, result) := SettleRow(cfg, s, env, ic, row, s.instructions[k]).value;
            MidImport(cfg, t, ic.batchKey, ic.index + 1) && RowReported(s, t, ic, row, result)
  {
    hide LogInv, EvidenceInv, ApprovalInv, SettlementInv, SettleRow, Unprocessed, KeyUsed, ReferenceConfirmed;
    StoredUnderTheirIds(cfg, s);
    var t := SettleRow(cfg, s, env, ic, row, s.instructions[(row.externalPartnerId, row.settlementReference)]).value.0;
    SettleChanges(cfg, s, env, ic, row);
    SettleKeepsLog(cfg, s, t, env, ic, row);
    SettleKeepsEvidence(cfg, s, t, env, ic, row);
    SettleKeepsApproval(cfg, s, t, env, ic, row);
    SettleKeepsSettlement(cfg, s, t, env, ic, row);
    hide NewConfirmation, Mismatches, RowChecks, ConfirmationExists, TwiceMoved;
  }

  lemma RowKeepsInv(cfg: Config, s: State, env: Env, ic: ImportContext, row: CsvRow)
    requires MidImport(cfg, s, ic.batchKey, ic.index) && ImportRow(cfg, s, env, ic, row).Ok?
    ensures var (t, result) := ImportRow(cfg, s, env, ic, row).value;
            MidImport(cfg, t, ic.batchKey, ic.index + 1) && RowReported(s, t, ic, row, result)
  {
    hide MidImport, RecordException, SettleRow, ReferenceConfirmed, NewConfirmation, RowReported;
    var k := (row.externalPartnerId, row.settlementReference);
    if ReferenceConfirmed(s.confirmations, row.externalPartnerId, row.settlementReference) {
      if k in s.instructions {
        ExceptionKeepsInv(cfg, s, env, ic, row, Some(s.instructions[k].drawId), Some(s.instructions[k].id), None, [DuplicateReference]);
      } else {
        ExceptionKeepsInv(cfg, s, env, ic, row, None, None, None, [DuplicateReference]);
      }
    } else if k !in s.instructions {
      ConfirmationNames(cfg, env, ic, row, None);
      ExceptionKeepsInv(cfg, s, env, ic, row, None, None, Some(NewConfirmation(cfg, env, ic, row, None)), [UnapprovedSettlement]);
    } else if !s.draws[s.instructions[k].drawId].status.SettlementInstructed? {
      ExceptionKeepsInv(cfg, s, env, ic, row, Some(s.instructions[k].drawId), Some(s.instructions[k].id), None, [DuplicateReference]);
    } else {
      SettleKeepsInv(cfg, s, env, ic, row);
    }
  }

  /** Every row of a batch yields exactly one result and one record, in order, and they say the same. */
  ghost predicate RowsReported(s: State, t: State, rows: seq<CsvRow>, results: seq<RowResult>) {
    |results| == |rows| && |t.records| == |s.records| + |rows| && s.records == t.records[..|s.records|]
    && forall i :: 0 <= i < |rows| ==>
         results[i].line == i + 2 && results[i].partner == rows[i].externalPartnerId && results[i].reference == rows[i].settlementReference
         && results[i].codes == t.records[|s.records| + i].codes && results[i].drawId == t.records[|s.records| + i].drawId
  }

  lemma {:induction false} RowsKeepInv(cfg: Config, s: State, env: Env, ic: ImportContext, rows: seq<CsvRow>)
    requires MidImport(cfg, s, ic.batchKey, 0) && ImportRows(cfg, s, env, ic, rows).Ok?
    ensures var (t, results) := ImportRows(cfg, s, env, ic, rows).value;
            MidImport(cfg, t, ic.batchKey, |rows|) && RowsReported(s, t, rows, results)
  {
    hide MidImport, ImportRow;
    if rows != [] {
      var front := rows[..|rows| - 1];
      RowsKeepInv(cfg, s, env, ic, front);
      var s1 := ImportRows(cfg, s, env, ic, front).value.0;
      RowKeepsInv(cfg, s1, env, ic.(index := |rows| - 1), rows[|rows| - 1]);
    }
  }

  lemma ImportStartsInv(cfg: Config, s: State, t: State, batchKey: string, actor: string)
    requires Inv(cfg, s) && !KeyUsed(s.chain.rows, batchKey)
    requires t == s.(chain := t.chain) && Extended(cfg, s.chain, t.chain, Entry("CSV_BATCH_IMPORTED", batchKey, None, None, batchKey, actor))
    ensures MidImport(cfg, t, batchKey, 0)
  {
    hide LogInv, EvidenceInv, ApprovalInv, SettlementInv, Extended, Grown, KeyUsed, Unprocessed;
    ImportStarts(cfg, s, t, batchKey, actor);
    ExtendedIsGrown(cfg, s.chain, t.chain, Entry("CSV_BATCH_IMPORTED", batchKey, None, None, batchKey, actor));
    LogOnlyKeepsEvidence(cfg, s, t);
    ElsewhereKeepsApproval(cfg, s, t);
    ElsewhereKeepsSettlement(s, t);
  }

  /** An import keeps the invariant, uses up its batch key and reports on every row. */
  lemma ImportKeepsInv(cfg: Config, s: State, env: Env, entrant: string, confirmer: string, batchKey: string, first: string, second: string)
    requires Inv(cfg, s) && ImportCsv(cfg, s, env, entrant, confirmer, batchKey, first, second).Ok?
    ensures var (t, results) := ImportCsv(cfg, s, env, entrant, confirmer, batchKey, first, second).value;
            Inv(cfg, t) && KeyUsed(t.chain.rows, batchKey) && RowsReported(s, t, ParseConfirmationCsv(first).value, results)
  {
    hide Inv, Extended, KeyUsed, Log, ImportRows, ImportedPayload, AuditText, RowsJson, RequireRole, ParseConfirmationCsv, Unrecorded, Importing;
    var rows := ParseConfirmationCsv(first).value;
    var role := RequireRole(env, entrant, CSV_ENTRY_ROLES, []).value;
    var input := PlainEvent(cfg, entrant, role, "CSV_BATCH_IMPORTED", "SETTLEMENT_CONFIRMATION", batchKey, batchKey, ImportedPayload(rows, confirmer));
    UnusedIsUnrecorded(s.chain.rows, batchKey, "CSV_BATCH_IMPORTED");
    LogExtends(cfg, s, env, (|rows|, 1), input);
    var s1 := Log(cfg, s, env, (|rows|, 1), input).value;
    ImportStartsInv(cfg, s, s1, batchKey, entrant);
    RowsKeepInv(cfg, s1, env, ImportContext(entrant, confirmer, role, batchKey, 0), rows);
    ImportingUsesKey(cfg, ImportRows(cfg, s1, env, ImportContext(entrant, confirmer, role, batchKey, 0), rows).value.0, batchKey, |rows|);
  }

  lemma ImportingUsesKey(cfg: Config, t: State, batchKey: string, done: nat)
    requires Importing(cfg, t, batchKey, done)
    ensures KeyUsed(t.chain.rows, batchKey)
  {
    hide LogInv, Unprocessed;
  }

  // ---------------------------------------------------------------------------
  // Runs
  // ---------------------------------------------------------------------------

  /** No operation, accepted or refused, breaks the invariant. */
  lemma StepKeepsInv(cfg: Config, s: State, op: Operation)
    requires Inv(cfg, s)
    ensures Inv(cfg, Step(cfg, s, op))
  {
    hide Inv, CreateDraft, UploadEvidence, VerifyEvidence, Submit, Evaluate, Approve, Instruct, StageCsv, ImportCsv;
    if Perform(cfg, s, op).Ok? {
      match op
      case CreatesDraft(env, subject, draft) => CreateKeepsInv(cfg, s, env, subject, draft);
      case UploadsEvidence(env, subject, upload) => UploadKeepsInv(cfg, s, env, subject, upload);
      case VerifiesEvidence(env, subject, documentId, key) => VerifyKeepsInv(cfg, s, env, subject, documentId, key);
      case Submits(env, subject, drawId, key) => SubmitKeepsInv(cfg, s, env, subject, drawId, key);
      case Evaluates(env, subject, drawId, key) => EvaluateKeepsInv(cfg, s, env, subject, drawId, key);
      case Approves(env, subject, approval) => ApproveKeepsInv(cfg, s, env, subject, approval);
      case Instructs(env, subject, instruction) => InstructKeepsInv(cfg, s, env, subject, instruction);
      case StagesCsv(env, subject, key, csv) => StageKeepsInv(cfg, s, env, subject, key, csv);
      case ConfirmsCsv(env, subject, key, csv) =>
        ImportKeepsInv(cfg, s, env, s.batches[key].subject, subject, key, s.batches[key].csv, csv);
      case ImportsCsv(env, subject, confirmer, key, first, second) =>
        ImportKeepsInv(cfg, s, env, subject, confirmer, key, first, second);
    }
  }

  lemma {:induction false} RunKeepsInv(cfg: Config, s: State, ops: seq<Operation>)
    requires Inv(cfg, s)
    ensures Inv(cfg, Run(cfg, s, ops))
  {
    hide Step, Inv;
    if ops != [] {
      RunKeepsInv(cfg, s, ops[..|ops| - 1]);
      StepKeepsInv(cfg, Run(cfg, s, ops[..|ops| - 1]), ops[|ops| - 1]);
    }
  }

  /** The invariant holds in every reachable state. */
  lemma ReachableInv(cfg: Config, s: State)
    requires Reachable(cfg, s)
    ensures Inv(cfg, s)
  {
    hide Step, Inv, Run;
    var ops :| s == Run(cfg, INITIAL, ops);
    InitialInv(cfg);
    RunKeepsInv(cfg, INITIAL, ops);
  }
}
