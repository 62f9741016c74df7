/** Later states against earlier ones: the log only grows, and frozen manifests, creation keys and staged batches stay. */
module WorkflowHistory {
  import opened CanonicalJson
  import opened DrawMachine
  import opened ConfirmationCsv
  import opened Workflow
  import opened WorkflowChanges
  import opened WorkflowLog
  import opened WorkflowEvidence
  import opened WorkflowApproval
  import opened WorkflowSettlement
  import opened WorkflowRuns

  /** The draw's manifest, what it covers and the policy it was frozen under are the same. */
  ghost predicate FreezeKept(s: State, t: State, id: string) {
    id in s.manifests && id in s.draws ==>
      id in t.manifests && id in t.draws && t.manifests[id] == s.manifests[id]
      && t.draws[id].lockedPolicyVersion == s.draws[id].lockedPolicyVersion
      && forall documentType :: InManifest(s, id, documentType) <==> InManifest(t, id, documentType)
  }

  /** Draws keep the key they were created under, and staged batches stay as they are. */
  ghost predicate EntriesKept(s: State, t: State) {
    && (forall id :: id in s.draws ==> id in t.draws && t.draws[id].idempotencyKey == s.draws[id].idempotencyKey)
    && (forall key :: key in s.batches ==> key in t.batches && t.batches[key] == s.batches[key])
  }

  ghost predicate Progress(s: State, t: State) {
    Grown(s.chain, t.chain) && EntriesKept(s, t) && forall id :: FreezeKept(s, t, id)
  }

  lemma ProgressReflexive(s: State)
    ensures Progress(s, s)
  {
  }

  lemma FreezeKeptTwice(s: State, m: State, t: State, id: string)
    requires FreezeKept(s, m, id) && FreezeKept(m, t, id)
    ensures FreezeKept(s, t, id)
  {
    hide InManifest;
  }

  lemma ProgressTransitive(s: State, m: State, t: State)
    requires Progress(s, m) && Progress(m, t)
    ensures Progress(s, t)
  {
    hide FreezeKept;
    forall id ensures FreezeKept(s, t, id) { FreezeKeptTwice(s, m, t, id); }
    assert s.chain.rows == m.chain.rows[..|s.chain.rows|] == t.chain.rows[..|s.chain.rows|];
  }

  /** Documents untouched, manifests at most added, and no locked policy changed. */
  lemma SameDocumentsProgress(s: State, t: State)
    requires Grown(s.chain, t.chain) && EntriesKept(s, t) && t.documents == s.documents
    requires forall id :: id in s.manifests ==> id in t.manifests && t.manifests[id] == s.manifests[id]
    requires forall id :: id in s.manifests && id in s.draws ==> id in t.draws && t.draws[id].lockedPolicyVersion == s.draws[id].lockedPolicyVersion
    ensures Progress(s, t)
  {
    forall id ensures FreezeKept(s, t, id) {
      if id in s.manifests { SameManifestKept(s, t, id); }
    }
  }

  lemma DocumentsProgress(s: State, t: State)
    requires Grown(s.chain, t.chain) && t.manifests == s.manifests && t.draws == s.draws && t.batches == s.batches
    requires forall id :: ManifestKept(s, t, id)
    ensures Progress(s, t)
  {
    hide InManifest, ManifestVerified, Grown;
    forall id ensures FreezeKept(s, t, id) { assert ManifestKept(s, t, id); }
  }

  /** Documents and manifests untouched, and at most one draw saved, with its policy kept. */
  ghost predicate OneSaved(s: State, t: State, next: DrawRequest) {
    t.documents == s.documents && t.manifests == s.manifests && t.batches == s.batches
    && (t.draws == s.draws || t.draws == s.draws[next.id := next])
    && (next.id in s.draws ==> next.lockedPolicyVersion == s.draws[next.id].lockedPolicyVersion)
    && (next.id in s.draws ==> next.idempotencyKey == s.draws[next.id].idempotencyKey)
  }

  lemma OneSavedProgress(s: State, t: State, next: DrawRequest)
    requires Grown(s.chain, t.chain) && OneSaved(s, t, next)
    ensures Progress(s, t)
  {
    hide Grown, Progress;
    SameDocumentsProgress(s, t);
  }

  lemma CreateProgress(cfg: Config, s: State, env: Env, subject: string, input: DraftInput)
    requires Inv(cfg, s) && CreateDraft(cfg, s, env, subject, input).Ok?
    ensures Progress(s, CreateDraft(cfg, s, env, subject, input).value)
  {
    hide CreateDraft, EvidenceInv, ApprovalInv, SettlementInv, LogInv, Extended, Progress, DrawWithKey, RowChecks, NumberTaken, ParseMinor, Grown;
    StoredUnder(cfg, s);
    CreateChanges(cfg, s, env, subject, input);
    var t := CreateDraft(cfg, s, env, subject, input).value;
    if DrawWithKey(s.draws, input.idempotencyKey) {
      ProgressReflexive(s);
    } else {
      ExtendedIsGrown(cfg, s.chain, t.chain, Entry("DRAW_CREATED", env.id(0, 0), None, Some("DRAFT"), input.idempotencyKey, subject));
      SameDocumentsProgress(s, t);
    }
  }

  lemma StoredUnder(cfg: Config, s: State)
    requires Inv(cfg, s)
    ensures Keyed(s.draws) && CreationsKeyed(s.chain.rows, s.draws) && StagingsKeyed(s.chain.rows, s.batches)
  {
    hide EvidenceInv, ApprovalInv, SettlementInv, LogInv;
    StoredUnderTheirIds(cfg, s);
  }

  lemma UploadProgress(cfg: Config, s: State, env: Env, subject: string, input: UploadInput)
    requires Inv(cfg, s) && UploadEvidence(cfg, s, env, subject, input).Ok?
    ensures Progress(s, UploadEvidence(cfg, s, env, subject, input).value)
  {
    hide UploadEvidence, EvidenceInv, ApprovalInv, SettlementInv, LogInv, Extended, Progress, KeyUsed, NewDocument, Grown, ManifestKept;
    UploadChanges(cfg, s, env, subject, input);
    var t := UploadEvidence(cfg, s, env, subject, input).value;
    if KeyUsed(s.chain.rows, input.idempotencyKey) {
      ProgressReflexive(s);
    } else {
      var doc := NewDocument(cfg, s, env, subject, s.draws[input.drawId], input);
      ExtendedIsGrown(cfg, s.chain, t.chain, Entry(if doc.supersedes.Some? then "EVIDENCE_SUPERSEDED" else "EVIDENCE_UPLOADED",
                                                   s.draws[input.drawId].id, None, None, input.idempotencyKey, subject));
      forall id ensures ManifestKept(s, t, id) { UploadKeepsManifest(cfg, s, t, doc, id); }
      DocumentsProgress(s, t);
    }
  }

  lemma VerifyProgress(cfg: Config, s: State, env: Env, subject: string, documentId: string, key: string)
    requires Inv(cfg, s) && VerifyEvidence(cfg, s, env, subject, documentId, key).Ok?
    ensures Progress(s, VerifyEvidence(cfg, s, env, subject, documentId, key).value)
  {
    hide VerifyEvidence, Inv, Extended, Progress, KeyUsed, FindDocument, VerificationOf, Grown, ManifestKept;
    VerifyChanges(cfg, s, env, subject, documentId, key);
    var t := VerifyEvidence(cfg, s, env, subject, documentId, key).value;
    if KeyUsed(s.chain.rows, key) {
      ProgressReflexive(s);
    } else {
      var i := FindDocument(s.documents, documentId).value;
      ExtendedIsGrown(cfg, s.chain, t.chain, Entry("EVIDENCE_VERIFIED", s.documents[i].drawId, None, None, key, subject));
      forall id ensures ManifestKept(s, t, id) { VerifyKeepsManifest(s, t, i, id); }
      DocumentsProgress(s, t);
    }
  }

  lemma SubmitGrows(cfg: Config, s: State, t: State, env: Env, subject: string, drawId: string, key: string)
    requires Keyed(s.draws) && SubmitChange(cfg, s, t, env, subject, drawId, key)
    ensures Grown(s.chain, t.chain) && EntriesKept(s, t) && t.documents == s.documents
    ensures forall id :: id in s.manifests ==> id in t.manifests && t.manifests[id] == s.manifests[id]
    ensures forall id :: id in s.manifests && id in s.draws ==> id in t.draws && t.draws[id].lockedPolicyVersion == s.draws[id].lockedPolicyVersion
  {
    hide Extended, KeyUsed, CurrentDocuments, ManifestHash, Ids, RowChecks, StatusName, Grown;
    ExtendedIsGrown(cfg, s.chain, t.chain, MoveEntry(s.draws[drawId], Submitted, "DRAW_SUBMITTED", key, subject));
  }

  lemma SubmitProgress(cfg: Config, s: State, env: Env, subject: string, drawId: string, key: string)
    requires Inv(cfg, s) && Submit(cfg, s, env, subject, drawId, key).Ok?
    ensures Progress(s, Submit(cfg, s, env, subject, drawId, key).value)
  {
    StoredUnder(cfg, s);
    hide Submit, Inv, SubmitChange, Progress, KeyUsed, Grown, EntriesKept;
    SubmitChanges(cfg, s, env, subject, drawId, key);
    var t := Submit(cfg, s, env, subject, drawId, key).value;
    if KeyUsed(s.chain.rows, key) {
      ProgressReflexive(s);
    } else {
      SubmitGrows(cfg, s, t, env, subject, drawId, key);
      SameDocumentsProgress(s, t);
    }
  }

  lemma EvaluateGrows(cfg: Config, s: State, t: State, env: Env, subject: string, drawId: string, key: string)
    requires Keyed(s.draws) && EvaluateChange(cfg, s, t, env, subject, drawId, key)
    ensures Grown(s.chain, t.chain) && drawId in t.draws && OneSaved(s, t, t.draws[drawId])
  {
    hide Extended, KeyUsed, ManifestComplete, RowChecks, StatusName, Grown;
    ExtendedIsGrown(cfg, s.chain, t.chain, MoveEntry(s.draws[drawId], UnderReview, "DRAW_POLICY_EVALUATED", key, subject));
  }

  lemma EvaluateProgress(cfg: Config, s: State, env: Env, subject: string, drawId: string, key: string)
    requires Inv(cfg, s) && Evaluate(cfg, s, env, subject, drawId, key).Ok?
    ensures Progress(s, Evaluate(cfg, s, env, subject, drawId, key).value)
  {
    StoredUnder(cfg, s);
    hide Evaluate, Inv, EvaluateChange, Progress, KeyUsed, Grown, OneSaved;
    EvaluateChanges(cfg, s, env, subject, drawId, key);
    var t := Evaluate(cfg, s, env, subject, drawId, key).value;
    if KeyUsed(s.chain.rows, key) {
      ProgressReflexive(s);
    } else {
      EvaluateGrows(cfg, s, t, env, subject, drawId, key);
      OneSavedProgress(s, t, t.draws[drawId]);
    }
  }

  lemma ApproveGrows(cfg: Config, s: State, t: State, env: Env, subject: string, input: ApproveInput)
    requires Keyed(s.draws) && ApproveChange(cfg, s, t, env, subject, input)
    ensures Grown(s.chain, t.chain) && input.drawId in t.draws && OneSaved(s, t, t.draws[input.drawId])
  {
    hide Extended, KeyUsed, Cleared, DecisionMade, BindingHash, Approvers, RowChecks, StatusName, Grown, ParseMinor;
    var d := s.draws[input.drawId];
    if t.draws == s.draws {
      ExtendedIsGrown(cfg, s.chain, t.chain, Entry("APPROVAL_RECORDED", d.id, None, None, input.idempotencyKey, subject));
    } else {
      ExtendedIsGrown(cfg, s.chain, t.chain, MoveEntry(d, Approved, "DRAW_APPROVED", input.idempotencyKey, subject));
    }
  }

  lemma ApproveProgress(cfg: Config, s: State, env: Env, subject: string, input: ApproveInput)
    requires Inv(cfg, s) && Approve(cfg, s, env, subject, input).Ok?
    ensures Progress(s, Approve(cfg, s, env, subject, input).value)
  {
    StoredUnder(cfg, s);
    hide Approve, Inv, ApproveChange, Progress, KeyUsed, Grown, OneSaved;
    ApproveChanges(cfg, s, env, subject, input);
    var t := Approve(cfg, s, env, subject, input).value;
    if KeyUsed(s.chain.rows, input.idempotencyKey) {
      ProgressReflexive(s);
    } else {
      ApproveGrows(cfg, s, t, env, subject, input);
      OneSavedProgress(s, t, t.draws[input.drawId]);
    }
  }

  lemma InstructGrows(cfg: Config, s: State, t: State, env: Env, subject: string, input: InstructInput)
    requires Keyed(s.draws) && InstructChange(cfg, s, t, env, subject, input)
    ensures Grown(s.chain, t.chain) && input.drawId in t.draws && OneSaved(s, t, t.draws[input.drawId])
  {
    hide Extended, KeyUsed, InstructionAllowed, RowChecks, StatusName, Grown;
    ExtendedIsGrown(cfg, s.chain, t.chain,
                    MoveEntry(s.draws[input.drawId], SettlementInstructed, "DRAW_SETTLEMENT_INSTRUCTED", input.idempotencyKey, subject));
  }

  lemma InstructProgress(cfg: Config, s: State, env: Env, subject: string, input: InstructInput)
    requires Inv(cfg, s) && Instruct(cfg, s, env, subject, input).Ok?
    ensures Progress(s, Instruct(cfg, s, env, subject, input).value)
  {
    StoredUnder(cfg, s);
    hide Instruct, Inv, InstructChange, Progress, KeyUsed, Grown, OneSaved;
    InstructChanges(cfg, s, env, subject, input);
    var t := Instruct(cfg, s, env, subject, input).value;
    if KeyUsed(s.chain.rows, input.idempotencyKey) {
      ProgressReflexive(s);
    } else {
      InstructGrows(cfg, s, t, env, subject, input);
      OneSavedProgress(s, t, t.draws[input.drawId]);
    }
  }

  lemma StageProgress(cfg: Config, s: State, env: Env, subject: string, batchKey: string, csv: string)
    requires Inv(cfg, s) && StageCsv(cfg, s, env, subject, batchKey, csv).Ok?
    ensures Progress(s, StageCsv(cfg, s, env, subject, batchKey, csv).value)
  {
    StoredUnder(cfg, s);
    hide StageCsv, Inv, Extended, Progress, Grown, Digest;
    StageChanges(cfg, s, env, subject, batchKey, csv);
    var t := StageCsv(cfg, s, env, subject, batchKey, csv).value;
    if batchKey in s.batches {
      ProgressReflexive(s);
    } else {
      ExtendedIsGrown(cfg, s.chain, t.chain, Entry("CSV_BATCH_STAGED", batchKey, None, None, batchKey + ":staged", subject));
      SameDocumentsProgress(s, t);
    }
  }

  lemma ExceptionProgress(cfg: Config, s: State, env: Env, ic: ImportContext, row: CsvRow, drawId: Option<string>,
                          instructionId: Option<string>, confirmation: Option<Confirmation>, codes: seq<Mismatch>)
    requires MidImport(cfg, s, ic.batchKey, ic.index)
    requires RecordException(cfg, s, env, ic, row, drawId, instructionId, confirmation, codes).Ok?
    ensures Progress(s, RecordException(cfg, s, env, ic, row, drawId, instructionId, confirmation, codes).value.0)
  {
    hide Inv, RecordException, BreakLogged, Unprocessed, RowKey, ConfirmationExists, Progress, Grown, KeyUsed;
    ExceptionChanges(cfg, s, env, ic, row, drawId, instructionId, confirmation, codes);
    var t := RecordException(cfg, s, env, ic, row, drawId, instructionId, confirmation, codes).value.0;
    BreakIsGrown(cfg, s.chain, t.chain, RowKey(ic.batchKey, ic.index + 1, "break"), ic.entrant);
    SameDocumentsProgress(s, t);
  }

  lemma SettleGrows(cfg: Config, s: State, t: State, env: Env, ic: ImportContext, row: CsvRow)
    requires Keyed(s.draws) && SettleChange(cfg, s, t, env, ic, row)
    ensures var id := s.instructions[(row.externalPartnerId, row.settlementReference)].drawId;
            Grown(s.chain, t.chain) && id in t.draws && OneSaved(s, t, t.draws[id])
  {
    hide Grown, NewConfirmation, Mismatches, RowChecks, ConfirmationExists, TwiceMoved;
    var d := s.draws[s.instructions[(row.externalPartnerId, row.settlementReference)].drawId];
    TwiceMovedIsGrown(cfg, s.chain, t.chain, d, t.draws[d.id].status, ic, if t.draws[d.id].status.Reconciled? then "reconciled" else "exception");
  }

  lemma SettleProgress(cfg: Config, s: State, env: Env, ic: ImportContext, row: CsvRow)
    requires MidImport(cfg, s, ic.batchKey, ic.index)
    requires var k := (row.externalPartnerId, row.settlementReference);
             k in s.instructions && s.instructions[k].drawId in s.draws
             && s.draws[s.instructions[k].drawId].status.SettlementInstructed?
             && SettleRow(cfg, s, env, ic, row, s.instructions[k]).Ok?
    ensures var k := (row.externalPartnerId, row.settlementReference);
            Progress(s, SettleRow(cfg, s, env, ic, row, s.instructions[k]).value.0)
  {
    StoredUnder(cfg, s);
    hide Inv, SettleRow, SettleChange, Unprocessed, KeyUsed, Progress, Grown, OneSaved;
    SettleChanges(cfg, s, env, ic, row);
    var i := s.instructions[(row.externalPartnerId, row.settlementReference)];
    var t := SettleRow(cfg, s, env, ic, row, i).value.0;
    SettleGrows(cfg, s, t, env, ic, row);
    OneSavedProgress(s, t, t.draws[i.drawId]);
  }

  lemma RowProgress(cfg: Config, s: State, env: Env, ic: ImportContext, row: CsvRow)
    requires MidImport(cfg, s, ic.batchKey, ic.index) && ImportRow(cfg, s, env, ic, row).Ok?
    ensures Progress(s, ImportRow(cfg, s, env, ic, row).value.0)
  {
    hide MidImport, RecordException, SettleRow, ReferenceConfirmed, NewConfirmation, Progress;
    var k := (row.externalPartnerId, row.settlementReference);
    if ReferenceConfirmed(s.confirmations, row.externalPartnerId, row.settlementReference) {
      if k in s.instructions {
        ExceptionProgress(cfg, s, env, ic, row, Some(s.instructions[k].drawId), Some(s.instructions[k].id), None, [DuplicateReference]);
      } else {
        ExceptionProgress(cfg, s, env, ic, row, None, None, None, [DuplicateReference]);
      }
    } else if k !in s.instructions {
      ExceptionProgress(cfg, s, env, ic, row, None, None, Some(NewConfirmation(cfg, env, ic, row, None)), [UnapprovedSettlement]);
    } else if !s.draws[s.instructions[k].drawId].status.SettlementInstructed? {
      ExceptionProgress(cfg, s, env, ic, row, Some(s.instructions[k].drawId), Some(s.instructions[k].id), None, [DuplicateReference]);
    } else {
      SettleProgress(cfg, s, env, ic, row);
    }
  }

  lemma {:induction false} RowsProgress(cfg: Config, s: State, env: Env, ic: ImportContext, rows: seq<CsvRow>)
    requires MidImport(cfg, s, ic.batchKey, 0) && ImportRows(cfg, s, env, ic, rows).Ok?
    ensures Progress(s, ImportRows(cfg, s, env, ic, rows).value.0)
  {
    hide MidImport, ImportRow, Progress, RowsReported;
    if rows == [] {
      ProgressReflexive(s);
    } else {
      var front := rows[..|rows| - 1];
      RowsProgress(cfg, s, env, ic, front);
      RowsKeepInv(cfg, s, env, ic, front);
      var s1 := ImportRows(cfg, s, env, ic, front).value.0;
      RowProgress(cfg, s1, env, ic.(index := |rows| - 1), rows[|rows| - 1]);
      ProgressTransitive(s, s1, ImportRows(cfg, s, env, ic, rows).value.0);
    }
  }

  lemma ImportProgress(cfg: Config, s: State, env: Env, entrant: string, confirmer: string, batchKey: string, first: string, second: string)
    requires Inv(cfg, s) && ImportCsv(cfg, s, env, entrant, confirmer, batchKey, first, second).Ok?
    ensures Progress(s, ImportCsv(cfg, s, env, entrant, confirmer, batchKey, first, second).value.0)
  {
    hide Inv, Extended, KeyUsed, Log, ImportRows, ImportedPayload, AuditText, RowsJson, RequireRole, ParseConfirmationCsv, Unrecorded, Importing,
         Progress, Grown;
    var rows := ParseConfirmationCsv(first).value;
    var role := RequireRole(env, entrant, CSV_ENTRY_ROLES, []).value;
    var input := PlainEvent(cfg, entrant, role, "CSV_BATCH_IMPORTED", "SETTLEMENT_CONFIRMATION", batchKey, batchKey, ImportedPayload(rows, confirmer));
    var ic := ImportContext(entrant, confirmer, role, batchKey, 0);
    UnusedIsUnrecorded(s.chain.rows, batchKey, "CSV_BATCH_IMPORTED");
    LogExtends(cfg, s, env, (|rows|, 1), input);
    var s1 := Log(cfg, s, env, (|rows|, 1), input).value;
    ImportStartsInv(cfg, s, s1, batchKey, entrant);
    ExtendedIsGrown(cfg, s.chain, s1.chain, InputEntry(input));
    SameDocumentsProgress(s, s1);
    RowsProgress(cfg, s1, env, ic, rows);
    ProgressTransitive(s, s1, ImportRows(cfg, s1, env, ic, rows).value.0);
  }

  /** Every operation only adds to the log and leaves frozen manifests alone. */
  lemma StepProgress(cfg: Config, s: State, op: Operation)
    requires Inv(cfg, s)
    ensures Progress(s, Step(cfg, s, op))
  {
    hide Inv, CreateDraft, UploadEvidence, VerifyEvidence, Submit, Evaluate, Approve, Instruct, StageCsv, ImportCsv, Progress;
    if Perform(cfg, s, op).Ok? {
      match op
      case CreatesDraft(env, subject, draft) => CreateProgress(cfg, s, env, subject, draft);
      case UploadsEvidence(env, subject, upload) => UploadProgress(cfg, s, env, subject, upload);
      case VerifiesEvidence(env, subject, documentId, key) => VerifyProgress(cfg, s, env, subject, documentId, key);
      case Submits(env, subject, drawId, key) => SubmitProgress(cfg, s, env, subject, drawId, key);
      case Evaluates(env, subject, drawId, key) => EvaluateProgress(cfg, s, env, subject, drawId, key);
      case Approves(env, subject, approval) => ApproveProgress(cfg, s, env, subject, approval);
      case Instructs(env, subject, instruction) => InstructProgress(cfg, s, env, subject, instruction);
      case StagesCsv(env, subject, key, csv) => StageProgress(cfg, s, env, subject, key, csv);
      case ConfirmsCsv(env, subject, key, csv) =>
        ImportProgress(cfg, s, env, s.batches[key].subject, subject, key, s.batches[key].csv, csv);
      case ImportsCsv(env, subject, confirmer, key, first, second) =>
        ImportProgress(cfg, s, env, subject, confirmer, key, first, second);
    } else {
      ProgressReflexive(s);
    }
  }

  /** Whatever happens next, the log stays a prefix of the log and frozen manifests stay frozen. */
  lemma {:induction false} RunProgress(cfg: Config, s: State, ops: seq<Operation>)
    requires Inv(cfg, s)
    ensures Progress(s, Run(cfg, s, ops)) && Inv(cfg, Run(cfg, s, ops))
  {
    hide Progress, Step, Inv;
    RunKeepsInv(cfg, s, ops);
    if ops == [] {
      ProgressReflexive(s);
    } else {
      var front := ops[..|ops| - 1];
      RunProgress(cfg, s, front);
      StepProgress(cfg, Run(cfg, s, front), ops[|ops| - 1]);
      ProgressTransitive(s, Run(cfg, s, front), Run(cfg, s, ops));
    }
  }
}
