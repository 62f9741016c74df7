/**
 * The draw service: tables that its methods change step by step, inside
 * transactions that either commit or leave every table as it was.
 */
module DrawServicing {
  import opened CanonicalJson
  import opened Ledger
  import opened DrawMachine
  import opened ConfirmationCsv
  import opened Workflow
  import opened WorkflowRuns
  import opened WorkflowHistory
  import opened WorkflowChanges

  class DrawService {
    const cfg: Config
    var draws: map<string, DrawRequest>
    var documents: seq<Document>
    var manifests: map<string, Manifest>
    var evaluations: map<string, Evaluation>
    var decisions: seq<Decision>
    var instructions: map<(string, string), Instruction>
    var confirmations: seq<Confirmation>
    var records: seq<ReconciliationRecord>
    var batches: map<string, Batch>
    var chain: Chain

    constructor (cfg: Config)
      ensures this.cfg == cfg && Snapshot() == INITIAL && Valid()
    {
      this.cfg := cfg;
      draws, documents, manifests, evaluations, decisions := map[], [], map[], map[], [];
      instructions, confirmations, records, batches, chain := map[], [], [], map[], EMPTY;
      new;
      InitialInv(cfg);
    }

    /** All tables at once. */
    function Snapshot(): State
      reads this
    {
      State(draws, documents, manifests, evaluations, decisions, instructions, confirmations, records, batches, chain)
    }

    ghost predicate Valid()
      reads this
    {
      Inv(cfg, Snapshot())
    }

    /** ROLLBACK */
    method Rollback(saved: State)
      modifies this
      ensures Snapshot() == saved
    {
      draws, documents, manifests, evaluations, decisions := saved.draws, saved.documents, saved.manifests, saved.evaluations, saved.decisions;
      instructions, confirmations, records := saved.instructions, saved.confirmations, saved.records;
      batches, chain := saved.batches, saved.chain;
    }

    // -------------------------------------------------------------------------
    // Steps inside a transaction
    // -------------------------------------------------------------------------

    method Append(env: Env, at: (nat, nat), input: AppendInput) returns (r: Result<bool>)
      modifies this
      ensures match Log(cfg, old(Snapshot()), env, at, input)
              case Ok(t) => r.Ok? && Snapshot() == t == old(Snapshot()).(chain := chain)
              case Err(e) => r == Err(e)
    {
      match AppendTo(cfg.sha, chain, cfg.tenant, input, Stamp(env.id(at.0, at.1), env.now, env.now), true) {
        case Stored(next, _) =>
          chain := next;
          return Ok(true);
        case Refused(why) =>
          return Err(LedgerRefused(why));
      }
    }

    method Transition(env: Env, at: (nat, nat), d: DrawRequest, target: Status, subject: string, role: string,
                      ctx: Option<ApprovalContext>, key: string, payload: Json) returns (r: Result<DrawRequest>)
      modifies this
      ensures match TransitionDraw(cfg, old(Snapshot()), env, at, d, target, subject, role, ctx, key, payload)
              case Ok((t, next)) => r == Ok(next) && Snapshot() == t == old(Snapshot()).(chain := chain)
              case Err(e) => r == Err(e)
    {
      hide Log, MoveEvent, Blocks;
      if target !in AllowedTransitions(d.status) {
        return Err(InvalidTransition);
      }
      if target.Approved? && (ctx.None? || exists f: Failure :: Blocks(f, d.amountApproved, d.amountRequested, ctx.value)) {
        return Err(ApprovalBlocked);
      }
      var _ :- Append(env, at, MoveEvent(cfg, subject, role, d, Some(d.status), target, EventForTarget(target), key, payload));
      return Ok(d.(status := target, submittedAt := if target.Submitted? && d.submittedAt.None? then Some(env.now) else d.submittedAt));
    }

    method Save(before: DrawRequest, next: DrawRequest) returns (r: Result<bool>)
      modifies this
      ensures match SaveDraw(old(Snapshot()), before, next)
              case Ok(t) => r.Ok? && Snapshot() == t && before.id in draws
              case Err(e) => r == Err(e)
    {
      if before.id !in draws || draws[before.id].status != before.status {
        return Err(ConcurrentChange);
      }
      var row := draws[before.id].(
        status := next.status, amountApproved := next.amountApproved, submittedAt := next.submittedAt,
        lockedPolicyVersion := next.lockedPolicyVersion, lockedManifestHash := next.lockedManifestHash,
        approvalBindingHash := next.approvalBindingHash, policyEvaluationId := next.policyEvaluationId,
        reconciliationStatus := next.reconciliationStatus);
      if !RowChecks(row) || !LocksKept(draws[before.id], row) {
        return Err(ConstraintViolated);
      }
      draws := draws[before.id := row];
      return Ok(true);
    }

    // -------------------------------------------------------------------------
    // Drafts and evidence
    // -------------------------------------------------------------------------

    method CreateDraftTx(env: Env, subject: string, input: DraftInput) returns (r: Result<DrawRequest>)
      requires Keyed(draws)
      modifies this
      ensures match Workflow.CreateDraft(cfg, old(Snapshot()), env, subject, input)
              case Ok(t) => Snapshot() == t && r.Ok? && r.value.id in draws && draws[r.value.id] == r.value && r.value.idempotencyKey == input.idempotencyKey
              case Err(e) => r == Err(e)
    {
      hide Log, RequireRole, ParseMinor, CreatedPayload, RowChecks, NumberTaken, PlainEvent;
      var parsed := ParseMinor(input.amountRequested);
      if parsed.None? { return Err(InvalidMoney); }
      var amount := parsed.value;
      if subject == "" { return Err(SessionRequired); }
      if input.idempotencyKey == "" { return Err(IdempotencyKeyRequired); }
      if DrawWithKey(draws, input.idempotencyKey) {
        var id :| id in draws && draws[id].idempotencyKey == input.idempotencyKey;
        return Ok(draws[id]);
      }
      var role :- RequireRole(env, subject, ["BorrowerSponsor", "OperationsOwner"], [input.dealId]);
      if input.dealId !in env.deals { return Err(NotFound); }
      if env.deals[input.dealId].currency != input.currency { return Err(CurrencyMismatch); }
      var d := NewDraw(env, subject, env.deals[input.dealId].spvId, input, amount);
      var _ :- Append(env, (0, 1), PlainEvent(cfg, subject, role, "DRAW_CREATED", "DRAW_REQUEST", d.id, input.idempotencyKey,
                                              CreatedPayload(input, amount)).(stateAfter := Some("DRAFT")));
      if !Insertable(Snapshot(), env, d) { return Err(ConstraintViolated); }
      draws := draws[d.id := d];
      return Ok(d);
    }

    method UploadEvidenceTx(env: Env, subject: string, input: UploadInput) returns (r: Result<Document>)
      modifies this
      ensures match Workflow.UploadEvidence(cfg, old(Snapshot()), env, subject, input)
              case Ok(t) => Snapshot() == t && r.Ok? && r.value in documents && r.value.contentHash == Digest(cfg, input.content)
              case Err(e) => r == Err(e)
    {
      hide Log, RequireRole, KeyUsed, UploadedPayload, Latest, DocumentExists, Digest, PlainEvent;
      if input.content == "" { return Err(EvidenceEmpty); }
      if subject == "" { return Err(SessionRequired); }
      if input.idempotencyKey == "" { return Err(IdempotencyKeyRequired); }
      if KeyUsed(chain.rows, input.idempotencyKey) {
        if !HasContent(documents, input.drawId, Digest(cfg, input.content)) { return Err(NotFound); }
        var i :| 0 <= i < |documents| && documents[i].drawId == input.drawId && documents[i].contentHash == Digest(cfg, input.content);
        return Ok(documents[i]);
      }
      if input.drawId !in draws { return Err(NotFound); }
      var d := draws[input.drawId];
      var role :- RequireRole(env, subject, ["BorrowerSponsor", "Inspector", "OperationsOwner"], [d.dealId]);
      if !d.status.Draft? { return Err(EvidenceFrozen); }
      var doc := NewDocument(cfg, Snapshot(), env, subject, d, input);
      var eventType := if doc.supersedes.Some? then "EVIDENCE_SUPERSEDED" else "EVIDENCE_UPLOADED";
      var _ :- Append(env, (0, 1), PlainEvent(cfg, subject, role, eventType, "DRAW_REQUEST", d.id, input.idempotencyKey, UploadedPayload(doc)));
      if DocumentExists(documents, doc.id) || doc.documentType !in DOCUMENT_TYPES { return Err(ConstraintViolated); }
      documents := documents + [doc];
      return Ok(doc);
    }

    method VerifyEvidenceTx(env: Env, subject: string, documentId: string, key: string) returns (r: Result<bool>)
      modifies this
      ensures match Workflow.VerifyEvidence(cfg, old(Snapshot()), env, subject, documentId, key)
              case Ok(t) => Snapshot() == t && r.Ok?
              case Err(e) => r == Err(e)
    {
      hide Log, RequireRole, KeyUsed, VerifiedPayload, PlainEvent;
      if subject == "" { return Err(SessionRequired); }
      if key == "" { return Err(IdempotencyKeyRequired); }
      if KeyUsed(chain.rows, key) { return Ok(true); }
      var found := FindDocument(documents, documentId);
      if found.None? { return Err(NotFound); }
      var i := found.value;
      var doc := documents[i];
      var role :- RequireRole(env, subject, ["OperationsOwner", "Inspector", "Underwriter", "RiskOwner"], [doc.dealId]);
      if doc.uploadedBy == subject { return Err(UploaderCannotVerify); }
      var _ :- Append(env, (0, 1), PlainEvent(cfg, subject, role, "EVIDENCE_VERIFIED", "DRAW_REQUEST", doc.drawId, key,
                                              VerifiedPayload(documentId, doc.contentHash)));
      documents := documents[i := doc.(verified := true)];
      return Ok(true);
    }

    // -------------------------------------------------------------------------
    // Submission, evaluation, approval, instruction
    // -------------------------------------------------------------------------

    method SubmitTx(env: Env, subject: string, drawId: string, key: string) returns (r: Result<DrawRequest>)
      requires Keyed(draws)
      modifies this
      ensures match Workflow.Submit(cfg, old(Snapshot()), env, subject, drawId, key)
              case Ok(t) => Snapshot() == t && drawId in draws && r == Ok(draws[drawId])
              case Err(e) => r == Err(e)
    {
      hide TransitionDraw, SaveDraw, KeyUsed, CurrentDocuments, ManifestHash, SubmittedPayload, Ids;
      if subject == "" { return Err(SessionRequired); }
      if key == "" { return Err(IdempotencyKeyRequired); }
      if drawId !in draws { return Err(NotFound); }
      if KeyUsed(chain.rows, key) { return Ok(draws[drawId]); }
      var d := draws[drawId];
      if d.requestedBy != subject { return Err(OnlyRequesterSubmits); }
      var current := CurrentDocuments(documents, drawId);
      if current == [] { return Err(EvidenceRequired); }
      if d.dealId !in env.deals { return Err(NotFound); }
      var hash, policyVersion := ManifestHash(cfg, current), env.deals[d.dealId].policyVersion;
      var _ :- PackOf(cfg, Some(policyVersion));
      var locked := d.(lockedPolicyVersion := Some(policyVersion), lockedManifestHash := Some(hash));
      var next :- Transition(env, (0, 1), locked, Submitted, subject, "Requester", None, key, SubmittedPayload(hash, policyVersion, current));
      if drawId in manifests { return Err(ConstraintViolated); }
      manifests := manifests[drawId := Manifest(Ids(current), hash)];
      var _ :- Save(d, next);
      return Ok(draws[drawId]);
    }

    method EvaluateTx(env: Env, subject: string, drawId: string, key: string) returns (r: Result<DrawRequest>)
      requires Keyed(draws)
      modifies this
      ensures match Workflow.Evaluate(cfg, old(Snapshot()), env, subject, drawId, key)
              case Ok(t) => Snapshot() == t && drawId in draws && r == Ok(draws[drawId])
              case Err(e) => r == Err(e)
    {
      hide TransitionDraw, SaveDraw, KeyUsed, ManifestComplete, EvaluatedPayload, RequireRole;
      if subject == "" { return Err(SessionRequired); }
      if key == "" { return Err(IdempotencyKeyRequired); }
      if drawId !in draws { return Err(NotFound); }
      if KeyUsed(chain.rows, key) { return Ok(draws[drawId]); }
      var d := draws[drawId];
      var role :- RequireRole(env, subject, ["OperationsOwner", "RiskOwner", "Underwriter", "LenderAdmin"], [d.dealId]);
      var pack :- PackOf(cfg, d.lockedPolicyVersion);
      var id := env.id(0, 0);
      var passed := ManifestComplete(Snapshot(), drawId, pack);
      var next :- Transition(env, (0, 1), d, UnderReview, subject, role, None, key, EvaluatedPayload(Snapshot(), drawId, id, pack));
      if id in evaluations { return Err(ConstraintViolated); }
      evaluations := evaluations[id := Evaluation(drawId, d.lockedPolicyVersion.value, d.lockedManifestHash, passed)];
      var _ :- Save(d, next.(policyEvaluationId := Some(id)));
      return Ok(draws[drawId]);
    }

    method Decide(env: Env, d: DrawRequest, decision: Decision) returns (r: Result<bool>)
      modifies this
      ensures match InsertDecision(old(Snapshot()), env, d, decision)
              case Ok(t) => r.Ok? && Snapshot() == t && draws == old(draws)
              case Err(e) => r == Err(e)
    {
      hide DecisionAllowed;
      if !DecisionAllowed(Snapshot(), env, d, decision) { return Err(ConstraintViolated); }
      decisions := decisions + [decision];
      return Ok(true);
    }

    method ApproveTx(env: Env, subject: string, input: ApproveInput) returns (r: Result<DrawRequest>)
      requires Keyed(draws)
      modifies this
      ensures match Workflow.Approve(cfg, old(Snapshot()), env, subject, input)
              case Ok(t) => Snapshot() == t && input.drawId in draws && r == Ok(draws[input.drawId])
              case Err(e) => r == Err(e)
    {
      hide Log, TransitionDraw, SaveDraw, InsertDecision, KeyUsed, RequireRole, ParseMinor, BindingHash, ContextOf, Blocks, DecisionPayload, PlainEvent;
      var parsedAmount, parsedRemaining := ParseMinor(input.amountApproved), ParseMinor(input.controls.remainingBudget);
      var parsedEligible := ParseMinor(input.controls.eligibleThisDraw);
      if parsedAmount.None? || parsedRemaining.None? || parsedEligible.None? { return Err(InvalidMoney); }
      var amount, remaining, eligible := parsedAmount.value, parsedRemaining.value, parsedEligible.value;
      if subject == "" { return Err(SessionRequired); }
      if input.idempotencyKey == "" { return Err(IdempotencyKeyRequired); }
      if input.drawId !in draws { return Err(NotFound); }
      if KeyUsed(chain.rows, input.idempotencyKey) { return Ok(draws[input.drawId]); }
      var d := draws[input.drawId];
      if !d.status.UnderReview? { return Err(InvalidState); }
      var pack :- PackOf(cfg, d.lockedPolicyVersion);
      var role :- RequireRole(env, subject, pack.approverRoles, [d.dealId, d.spvId]);
      var hash := BindingHash(cfg, d, amount);
      var candidate := d.(amountApproved := Some(amount), approvalBindingHash := Some(hash));
      var ctx := ContextOf(Snapshot(), env, subject, d, pack, hash, remaining, eligible, input.controls);
      var decision := Decision(d.id, subject, role, d.lockedPolicyVersion, d.lockedManifestHash, hash, input.idempotencyKey);
      var payload := DecisionPayload(hash, amount, input.controls);
      if exists f: Failure :: !f.ApprovalsIncomplete? && Blocks(f, Some(amount), d.amountRequested, ctx) { return Err(ApprovalBlocked); }
      if Blocks(ApprovalsIncomplete, Some(amount), d.amountRequested, ctx) {
        var _ :- Append(env, (0, 1), PlainEvent(cfg, subject, role, "APPROVAL_RECORDED", "DRAW_REQUEST", d.id, input.idempotencyKey, payload)
          .(policyVersion := TextOr(d.lockedPolicyVersion), evidenceManifestHash := TextOr(d.lockedManifestHash)));
        var _ :- Decide(env, d, decision);
        return Ok(draws[input.drawId]);
      }
      var next :- Transition(env, (0, 1), candidate, Approved, subject, role, Some(ctx), input.idempotencyKey, payload);
      var _ :- Decide(env, d, decision);
      var _ :- Save(d, next);
      return Ok(draws[input.drawId]);
    }

    method InstructTx(env: Env, subject: string, input: InstructInput) returns (r: Result<DrawRequest>)
      requires Keyed(draws)
      modifies this
      ensures match Workflow.Instruct(cfg, old(Snapshot()), env, subject, input)
              case Ok(t) => Snapshot() == t && input.drawId in draws && r == Ok(draws[input.drawId])
              case Err(e) => r == Err(e)
    {
      hide TransitionDraw, SaveDraw, KeyUsed, RequireRole, Decided, InstructionAllowed, InstructedPayload;
      if subject == "" { return Err(SessionRequired); }
      if input.idempotencyKey == "" { return Err(IdempotencyKeyRequired); }
      if input.drawId !in draws { return Err(NotFound); }
      if KeyUsed(chain.rows, input.idempotencyKey) { return Ok(draws[input.drawId]); }
      var d := draws[input.drawId];
      var role :- RequireRole(env, subject, ["TreasuryOwner"], [d.dealId, d.spvId]);
      if subject == d.requestedBy { return Err(RequesterCannotInstruct); }
      if Decided(decisions, d.id, subject) { return Err(ApproverCannotInstruct); }
      var next :- Transition(env, (0, 1), d, SettlementInstructed, subject, role, None, input.idempotencyKey, InstructedPayload(d, input));
      if d.amountApproved.None? { return Err(ConstraintViolated); }
      var instruction := Instruction(env.id(0, 0), d.id, subject, d.amountApproved.value, d.currency, d.payeeBankAccountId,
                                     d.lockedPolicyVersion, d.lockedManifestHash, d.approvalBindingHash, Sent, env.now, input.idempotencyKey);
      if !InstructionAllowed(Snapshot(), env, d, input.externalPartnerId, input.settlementReference, instruction) { return Err(ConstraintViolated); }
      instructions := instructions[(input.externalPartnerId, input.settlementReference) := instruction];
      var _ :- Save(d, next);
      return Ok(draws[input.drawId]);
    }

    // -------------------------------------------------------------------------
    // Confirmations by CSV
    // -------------------------------------------------------------------------

    method StageCsvTx(env: Env, subject: string, batchKey: string, csv: string) returns (r: Result<nat>)
      modifies this
      ensures match Workflow.StageCsv(cfg, old(Snapshot()), env, subject, batchKey, csv)
              case Ok(t) => Snapshot() == t && ParseConfirmationCsv(csv).Some? && r == Ok(|ParseConfirmationCsv(csv).value|)
              case Err(e) => r == Err(e)
    {
      hide Log, ParseConfirmationCsv, RequireRole, PlainEvent, Digest;
      var parsed := ParseConfirmationCsv(csv);
      if parsed.None? { return Err(CsvInvalid); }
      var rows, hash := parsed.value, Digest(cfg, csv);
      if subject == "" { return Err(SessionRequired); }
      if batchKey == "" { return Err(IdempotencyKeyRequired); }
      if batchKey in batches {
        if batches[batchKey].subject == subject && batches[batchKey].hash == hash { return Ok(|rows|); }
        return Err(BatchAlreadyStaged);
      }
      var role :- RequireRole(env, subject, CSV_ENTRY_ROLES, []);
      var _ :- Append(env, (0, 1), PlainEvent(cfg, subject, role, "CSV_BATCH_STAGED", "SETTLEMENT_CONFIRMATION", batchKey, batchKey + ":staged",
                                              StagedPayload(hash, |rows|)));
      batches := batches[batchKey := Batch(csv, hash, subject)];
      return Ok(|rows|);
    }

    method Confirm(c: Confirmation) returns (r: Result<bool>)
      modifies this
      ensures match InsertConfirmation(old(Snapshot()), c)
              case Ok(t) => r.Ok? && Snapshot() == t == old(Snapshot()).(confirmations := confirmations)
              case Err(e) => r == Err(e)
    {
      hide CalendarDate, ConfirmationExists;
      if !(c.amount > 0 && CalendarDate(c.settlementDate) && c.enteredBy != c.secondEntryBy && !ConfirmationExists(confirmations, c.id)) {
        return Err(ConstraintViolated);
      }
      confirmations := confirmations + [c];
      return Ok(true);
    }

    method Except(env: Env, ic: ImportContext, row: CsvRow, drawId: Option<string>, instructionId: Option<string>,
                  confirmation: Option<Confirmation>, codes: seq<Mismatch>) returns (r: Result<RowResult>)
      modifies this
      ensures match RecordException(cfg, old(Snapshot()), env, ic, row, drawId, instructionId, confirmation, codes)
              case Ok((t, result)) => r == Ok(result) && Snapshot() == t
              case Err(e) => r == Err(e)
    {
      hide Log, BreakEvent, InsertConfirmation;
      var _ :- Append(env, (ic.index, 1), BreakEvent(cfg, ic, row, drawId, codes));
      if confirmation.Some? {
        var _ :- Confirm(confirmation.value);
      }
      records := records + [ReconciliationRecord(drawId, instructionId, if confirmation.Some? then Some(confirmation.value.id) else None, codes, ic.entrant)];
      return Ok(RowResult(ic.index + 2, row.externalPartnerId, row.settlementReference, drawId, codes));
    }

    method Settle(env: Env, ic: ImportContext, row: CsvRow, instruction: Instruction) returns (r: Result<RowResult>)
      requires instruction.drawId in draws
      modifies this
      ensures match SettleRow(cfg, old(Snapshot()), env, ic, row, instruction)
              case Ok((t, result)) => r == Ok(result) && Snapshot() == t
              case Err(e) => r == Err(e)
    {
      hide TransitionDraw, SaveDraw, InsertConfirmation, NewConfirmation, RowKey, Mismatches, MatchGuard, ConfirmedPayload, ReconciledPayload, ExceptionPayload;
      var k := (row.externalPartnerId, row.settlementReference);
      var d := draws[instruction.drawId];
      var c := NewConfirmation(cfg, env, ic, row, Some(instruction.id));
      var confirmed :- Transition(env, (ic.index, 1), d, SettlementConfirmed, ic.entrant, ic.role, None,
                                  RowKey(ic.batchKey, ic.index + 1, "confirmed"), ConfirmedPayload(c.id, row));
      var _ :- Confirm(c);
      instructions := instructions[k := instruction.(status := ConfirmedByPartner)];
      var _ :- Save(d, confirmed);
      if instruction.payeeBankAccountId !in env.accounts { return Err(NotFound); }
      var codes := Mismatches(row, instruction, env.accounts[instruction.payeeBankAccountId].accountRef);
      var record := ReconciliationRecord(Some(d.id), Some(instruction.id), Some(c.id), codes, ic.entrant);
      if codes == [] {
        var next :- Transition(env, (ic.index, 2), confirmed, Reconciled, ic.entrant, ic.role, None,
                               RowKey(ic.batchKey, ic.index + 1, "reconciled"), ReconciledPayload(c.id, instruction.id));
        if !MatchGuard(Snapshot(), env, record) { return Err(ConstraintViolated); }
        records := records + [record];
        var _ :- Save(confirmed, next.(reconciliationStatus := MatchedStatus));
      } else {
        var next :- Transition(env, (ic.index, 2), confirmed, ReconciliationException, ic.entrant, ic.role, None,
                               RowKey(ic.batchKey, ic.index + 1, "exception"), ExceptionPayload(c.id, codes));
        records := records + [record];
        var _ :- Save(confirmed, next.(reconciliationStatus := ExceptionStatus));
      }
      return Ok(RowResult(ic.index + 2, row.externalPartnerId, row.settlementReference, Some(d.id), codes));
    }

    method ImportCsvTx(env: Env, entrant: string, confirmer: string, batchKey: string, first: string, second: string)
      returns (r: Result<seq<RowResult>>)
      modifies this
      ensures match Workflow.ImportCsv(cfg, old(Snapshot()), env, entrant, confirmer, batchKey, first, second)
              case Ok((t, results)) => r == Ok(results) && Snapshot() == t
              case Err(e) => r == Err(e)
    {
      hide Log, ImportRow, ParseConfirmationCsv, AuditText, RowsJson, RequireRole, KeyUsed, PlainEvent, ImportedPayload, RecordException, SettleRow,
           ReferenceConfirmed, NewConfirmation;
      if entrant == confirmer { return Err(DualEntrySamePerson); }
      var parsed, copy := ParseConfirmationCsv(first), ParseConfirmationCsv(second);
      if parsed.None? || copy.None? { return Err(CsvInvalid); }
      var rows := parsed.value;
      if AuditText(Arr(RowsJson(rows))) != AuditText(Arr(RowsJson(copy.value))) { return Err(DualEntryMismatch); }
      if entrant == "" { return Err(SessionRequired); }
      if batchKey == "" { return Err(IdempotencyKeyRequired); }
      if KeyUsed(chain.rows, batchKey) { return Err(BatchAlreadyImported); }
      var role :- RequireRole(env, entrant, CSV_ENTRY_ROLES, []);
      var _ :- RequireRole(env, confirmer, CSV_ENTRY_ROLES, []);
      var _ :- Append(env, (|rows|, 1), PlainEvent(cfg, entrant, role, "CSV_BATCH_IMPORTED", "SETTLEMENT_CONFIRMATION", batchKey, batchKey,
                                                   ImportedPayload(rows, confirmer)));
      r := ImportLoop(env, ImportContext(entrant, confirmer, role, batchKey, 0), rows);
    }

    /** The rows one after the other; each ends its turn with a result, or the whole import fails. */
    method ImportLoop(env: Env, start: ImportContext, rows: seq<CsvRow>) returns (r: Result<seq<RowResult>>)
      modifies this
      ensures match ImportRows(cfg, old(Snapshot()), env, start, rows)
              case Ok((t, results)) => r == Ok(results) && Snapshot() == t
              case Err(e) => r == Err(e)
    {
      hide RecordException, SettleRow, ReferenceConfirmed, NewConfirmation;
      var results: seq<RowResult> := [];
      for i := 0 to |rows|
        invariant ImportRows(cfg, old(Snapshot()), env, start, rows[..i]) == Ok((Snapshot(), results))
      {
        var row, ic := rows[i], start.(index := i);
        ImportRowsStep(cfg, old(Snapshot()), env, start, rows, i);
        hide ImportRows;
        var k := (row.externalPartnerId, row.settlementReference);
        if ReferenceConfirmed(confirmations, row.externalPartnerId, row.settlementReference) {
          var known := k in instructions;
          var result :- Except(env, ic, row, if known then Some(instructions[k].drawId) else None, if known then Some(instructions[k].id) else None,
                               None, [DuplicateReference]);
          results := results + [result];
          continue;
        }
        if k !in instructions {
          var result :- Except(env, ic, row, None, None, Some(NewConfirmation(cfg, env, ic, row, None)), [UnapprovedSettlement]);
          results := results + [result];
          continue;
        }
        var instruction := instructions[k];
        if instruction.drawId !in draws { return Err(NotFound); }
        if !draws[instruction.drawId].status.SettlementInstructed? {
          var result :- Except(env, ic, row, Some(instruction.drawId), Some(instruction.id), None, [DuplicateReference]);
          results := results + [result];
          continue;
        }
        var result :- Settle(env, ic, row, instruction);
        results := results + [result];
      }
      assert rows[..|rows|] == rows;
      return Ok(results);
    }

    // -------------------------------------------------------------------------
    // Operations: a transaction each, rolled back on any error
    // -------------------------------------------------------------------------

    /** Creates a draft, or returns the one created under this key. */
    method CreateDraft(env: Env, subject: string, input: DraftInput) returns (r: Result<DrawRequest>)
      requires Valid()
      modifies this
      ensures Valid()
      ensures match Workflow.CreateDraft(cfg, old(Snapshot()), env, subject, input)
              case Ok(t) => Snapshot() == t && r.Ok? && r.value.id in draws && draws[r.value.id] == r.value && r.value.idempotencyKey == input.idempotencyKey
              case Err(e) => Snapshot() == old(Snapshot()) && r == Err(e)
    {
      hide Inv, Workflow.CreateDraft;
      var saved := Snapshot();
      StepKeepsInv(cfg, saved, CreatesDraft(env, subject, input));
      StoredUnder(cfg, saved);
      r := CreateDraftTx(env, subject, input);
      if r.Err? { Rollback(saved); }
    }

    /** Adds a version of a document, hashed from its content. */
    method UploadEvidence(env: Env, subject: string, input: UploadInput) returns (r: Result<Document>)
      requires Valid()
      modifies this
      ensures Valid()
      ensures match Workflow.UploadEvidence(cfg, old(Snapshot()), env, subject, input)
              case Ok(t) => Snapshot() == t && r.Ok? && r.value in documents && r.value.contentHash == Digest(cfg, input.content)
              case Err(e) => Snapshot() == old(Snapshot()) && r == Err(e)
    {
      hide Inv, Workflow.UploadEvidence;
      var saved := Snapshot();
      StepKeepsInv(cfg, saved, UploadsEvidence(env, subject, input));
      r := UploadEvidenceTx(env, subject, input);
      if r.Err? { Rollback(saved); }
    }

    /** Marks a document verified. */
    method VerifyEvidence(env: Env, subject: string, documentId: string, key: string) returns (r: Result<bool>)
      requires Valid()
      modifies this
      ensures Valid()
      ensures match Workflow.VerifyEvidence(cfg, old(Snapshot()), env, subject, documentId, key)
              case Ok(t) => Snapshot() == t && r.Ok?
              case Err(e) => Snapshot() == old(Snapshot()) && r == Err(e)
    {
      hide Inv, Workflow.VerifyEvidence;
      var saved := Snapshot();
      StepKeepsInv(cfg, saved, VerifiesEvidence(env, subject, documentId, key));
      r := VerifyEvidenceTx(env, subject, documentId, key);
      if r.Err? { Rollback(saved); }
    }

    /** Freezes policy and evidence and submits. */
    method Submit(env: Env, subject: string, drawId: string, key: string) returns (r: Result<DrawRequest>)
      requires Valid()
      modifies this
      ensures Valid()
      ensures match Workflow.Submit(cfg, old(Snapshot()), env, subject, drawId, key)
              case Ok(t) => Snapshot() == t && drawId in draws && r == Ok(draws[drawId])
              case Err(e) => Snapshot() == old(Snapshot()) && r == Err(e)
    {
      hide Inv, Workflow.Submit;
      var saved := Snapshot();
      StepKeepsInv(cfg, saved, Submits(env, subject, drawId, key));
      StoredUnder(cfg, saved);
      r := SubmitTx(env, subject, drawId, key);
      if r.Err? { Rollback(saved); }
    }

    /** Evaluates the locked policy against the frozen manifest. */
    method Evaluate(env: Env, subject: string, drawId: string, key: string) returns (r: Result<DrawRequest>)
      requires Valid()
      modifies this
      ensures Valid()
      ensures match Workflow.Evaluate(cfg, old(Snapshot()), env, subject, drawId, key)
              case Ok(t) => Snapshot() == t && drawId in draws && r == Ok(draws[drawId])
              case Err(e) => Snapshot() == old(Snapshot()) && r == Err(e)
    {
      hide Inv, Workflow.Evaluate;
      var saved := Snapshot();
      StepKeepsInv(cfg, saved, Evaluates(env, subject, drawId, key));
      StoredUnder(cfg, saved);
      r := EvaluateTx(env, subject, drawId, key);
      if r.Err? { Rollback(saved); }
    }

    /** Records a decision, and approves the draw once nothing blocks it. */
    method Approve(env: Env, subject: string, input: ApproveInput) returns (r: Result<DrawRequest>)
      requires Valid()
      modifies this
      ensures Valid()
      ensures match Workflow.Approve(cfg, old(Snapshot()), env, subject, input)
              case Ok(t) => Snapshot() == t && input.drawId in draws && r == Ok(draws[input.drawId])
              case Err(e) => Snapshot() == old(Snapshot()) && r == Err(e)
    {
      hide Inv, Workflow.Approve;
      var saved := Snapshot();
      StepKeepsInv(cfg, saved, Approves(env, subject, input));
      StoredUnder(cfg, saved);
      r := ApproveTx(env, subject, input);
      if r.Err? { Rollback(saved); }
    }

    /** Records a settlement instruction for an approved draw. */
    method Instruct(env: Env, subject: string, input: InstructInput) returns (r: Result<DrawRequest>)
      requires Valid()
      modifies this
      ensures Valid()
      ensures match Workflow.Instruct(cfg, old(Snapshot()), env, subject, input)
              case Ok(t) => Snapshot() == t && input.drawId in draws && r == Ok(draws[input.drawId])
              case Err(e) => Snapshot() == old(Snapshot()) && r == Err(e)
    {
      hide Inv, Workflow.Instruct;
      var saved := Snapshot();
      StepKeepsInv(cfg, saved, Instructs(env, subject, input));
      StoredUnder(cfg, saved);
      r := InstructTx(env, subject, input);
      if r.Err? { Rollback(saved); }
    }

    /** Stages the first entry of a batch. */
    method StageCsv(env: Env, subject: string, batchKey: string, csv: string) returns (r: Result<nat>)
      requires Valid()
      modifies this
      ensures Valid()
      ensures match Workflow.StageCsv(cfg, old(Snapshot()), env, subject, batchKey, csv)
              case Ok(t) => Snapshot() == t && ParseConfirmationCsv(csv).Some? && r == Ok(|ParseConfirmationCsv(csv).value|)
              case Err(e) => Snapshot() == old(Snapshot()) && r == Err(e)
    {
      hide Inv, Workflow.StageCsv, ParseConfirmationCsv;
      var saved := Snapshot();
      StepKeepsInv(cfg, saved, StagesCsv(env, subject, batchKey, csv));
      r := StageCsvTx(env, subject, batchKey, csv);
      if r.Err? { Rollback(saved); }
    }

    /** Imports two equal entries of a batch: all of its rows, or none. */
    method ImportCsv(env: Env, entrant: string, confirmer: string, batchKey: string, first: string, second: string) returns (r: Result<seq<RowResult>>)
      requires Valid()
      modifies this
      ensures Valid()
      ensures match Workflow.ImportCsv(cfg, old(Snapshot()), env, entrant, confirmer, batchKey, first, second)
              case Ok((t, results)) => Snapshot() == t && r == Ok(results)
              case Err(e) => Snapshot() == old(Snapshot()) && r == Err(e)
    {
      hide Inv, Workflow.ImportCsv;
      var saved := Snapshot();
      StepKeepsInv(cfg, saved, ImportsCsv(env, entrant, confirmer, batchKey, first, second));
      r := ImportCsvTx(env, entrant, confirmer, batchKey, first, second);
      if r.Err? { Rollback(saved); }
    }

    /** Imports a staged batch against a second copy; who entered it first is known from the staging. */
    method ConfirmCsv(env: Env, subject: string, batchKey: string, csv: string) returns (r: Result<seq<RowResult>>)
      requires Valid()
      modifies this
      ensures Valid()
      ensures match Workflow.ConfirmCsv(cfg, old(Snapshot()), env, subject, batchKey, csv)
              case Ok((t, results)) => Snapshot() == t && r == Ok(results)
              case Err(e) => Snapshot() == old(Snapshot()) && r == Err(e)
    {
      hide Inv, Workflow.ImportCsv;
      if subject == "" { return Err(SessionRequired); }
      if batchKey !in batches { return Err(NotFound); }
      r := ImportCsv(env, batches[batchKey].subject, subject, batchKey, batches[batchKey].csv, csv);
    }
  }

  /** One more row: either the import goes on with its result, or the whole import fails with its error. */
  lemma ImportRowsStep(cfg: Config, s: State, env: Env, start: ImportContext, rows: seq<CsvRow>, i: nat)
    requires i < |rows| && ImportRows(cfg, s, env, start, rows[..i]).Ok?
    ensures var (t, results) := ImportRows(cfg, s, env, start, rows[..i]).value;
            match ImportRow(cfg, t, env, start.(index := i), rows[i])
            case Ok((u, result)) => ImportRows(cfg, s, env, start, rows[..i + 1]) == Ok((u, results + [result]))
            case Err(e) => ImportRows(cfg, s, env, start, rows) == Err(e)
  {
    hide ImportRow;
    assert rows[..i + 1][..i] == rows[..i];
    var (t, results) := ImportRows(cfg, s, env, start, rows[..i]).value;
    if ImportRow(cfg, t, env, start.(index := i), rows[i]).Err? {
      ImportStopsAt(cfg, s, env, start, rows, i + 1);
    }
  }

  lemma {:induction false} ImportStopsAt(cfg: Config, s: State, env: Env, start: ImportContext, rows: seq<CsvRow>, n: nat)
    requires n <= |rows| && ImportRows(cfg, s, env, start, rows[..n]).Err?
    ensures ImportRows(cfg, s, env, start, rows) == Err(ImportRows(cfg, s, env, start, rows[..n]).error)
  {
    hide ImportRow;
    if n == |rows| {
      assert rows[..n] == rows;
    } else {
      assert rows[..|rows| - 1][..n] == rows[..n];
      ImportStopsAt(cfg, s, env, start, rows[..|rows| - 1], n);
    }
  }
}
