/** What holds in every state the workflow can reach, for any users, policy packs and batches. */
module WorkflowGuarantees {
  import opened Sums
  import opened CanonicalJson
  import opened Ledger
  import opened DrawMachine
  import opened ConfirmationCsv
  import opened Workflow
  import opened WorkflowChanges
  import opened WorkflowLog
  import opened WorkflowEvidence
  import opened WorkflowApproval
  import opened WorkflowSettlement
  import opened WorkflowRuns
  import opened WorkflowHistory

  // ---------------------------------------------------------------------------
  // The log
  // ---------------------------------------------------------------------------

  /** Each draw's logged moves form a path of the state machine from its creation to the status of its row. */
  lemma LogReplaysState(cfg: Config, s: State, id: string)
    requires Reachable(cfg, s)
    ensures Replay(s.chain.rows, id) == Some(if id in s.draws then Some(s.draws[id].status) else None)
  {
    hide Reachable, EvidenceInv, ApprovalInv, SettlementInv, Sound, CreationsKeyed, StagingsKeyed, BatchesKeyed, Replay;
    ReachableInv(cfg, s);
  }

  /** A draw was in every state that leads to its own: a reconciled one was submitted, reviewed, approved and instructed. */
  lemma NoStateIsSkipped(cfg: Config, s: State, id: string, u: Status)
    requires Reachable(cfg, s) && id in s.draws && u in OnEveryPathTo(s.draws[id].status)
    ensures WasIn(s.chain.rows, id, u)
  {
    hide Reachable, OnEveryPathTo, Replay;
    LogReplaysState(cfg, s, id);
    LogPassesThrough(s.chain.rows, id, s.draws[id].status, u);
  }

  /** The tenant's audit chain verifies in every reachable state. */
  lemma AuditChainVerifies(cfg: Config, s: State)
    requires Reachable(cfg, s)
    ensures Verifies(cfg.sha, s.chain)
  {
    hide Reachable, EvidenceInv, ApprovalInv, SettlementInv, Replays, CreationsKeyed, StagingsKeyed, BatchesKeyed;
    ReachableInv(cfg, s);
    SoundVerifies(cfg.sha, s.chain);
  }

  /** Nothing logged is ever changed or removed. */
  lemma HistoryIsKept(cfg: Config, s: State, more: seq<Operation>)
    requires Reachable(cfg, s)
    ensures s.chain.rows <= Run(cfg, s, more).chain.rows
  {
    hide Reachable, Run, Inv, FreezeKept;
    ReachableInv(cfg, s);
    RunProgress(cfg, s, more);
  }

  // ---------------------------------------------------------------------------
  // Approval
  // ---------------------------------------------------------------------------

  /** From APPROVED on, enough people, none the requester, approved the draw's present terms, within what was requested. */
  lemma ApprovalQuorum(cfg: Config, s: State, id: string)
    requires Reachable(cfg, s) && id in s.draws && PastApproval(s.draws[id].status)
    ensures var d := s.draws[id];
            d.amountApproved.Some? && 0 < d.amountApproved.value <= d.amountRequested
            && d.lockedPolicyVersion.Some? && d.lockedPolicyVersion.value in cfg.packs
            && d.approvalBindingHash == Some(BindingHash(cfg, d, d.amountApproved.value))
            && var approvers := Approvers(s.decisions, id, d.approvalBindingHash.value);
               |approvers| >= cfg.packs[d.lockedPolicyVersion.value].requiredApprovals && d.requestedBy !in approvers
  {
    hide Reachable, Inv, BindingHash, Approvers, ManifestComplete, ManifestVerified;
    ReachableInv(cfg, s);
    ApprovedIsCleared(cfg, s, id);
  }

  lemma ApprovedIsCleared(cfg: Config, s: State, id: string)
    requires Inv(cfg, s) && id in s.draws && PastApproval(s.draws[id].status)
    ensures Bound(cfg, s, s.draws[id]) && s.draws[id].id == id && !s.draws[id].status.Draft?
  {
    hide EvidenceInv, SettlementInv, Sound, Replays, CreationsKeyed, StagingsKeyed, BatchesKeyed, Bound, DecisionsInv, RowChecks;
  }

  // ---------------------------------------------------------------------------
  // Evidence
  // ---------------------------------------------------------------------------

  /** Past DRAFT, recomputing the manifest from the evidence table gives the locked hash and the frozen ids. */
  lemma ManifestRecomputes(cfg: Config, s: State, id: string)
    requires Reachable(cfg, s) && id in s.draws && !s.draws[id].status.Draft?
    ensures id in s.manifests
            && s.draws[id].lockedManifestHash == Some(ManifestHash(cfg, CurrentDocuments(s.documents, id)))
            && s.manifests[id] == Manifest(Ids(CurrentDocuments(s.documents, id)), ManifestHash(cfg, CurrentDocuments(s.documents, id)))
  {
    hide Reachable, LogInv, ApprovalInv, SettlementInv, DocumentsInv, VerifiedInv, CurrentDocuments, ManifestHash, Ids;
    ReachableInv(cfg, s);
    assert FrozenRight(cfg, s.draws, s.documents, s.manifests, id);
  }

  /** The versions of each document are 1, 2, 3, …, and only the last of them is not superseded. */
  lemma OneHeadPerDocument(cfg: Config, s: State, d: Document)
    requires Reachable(cfg, s) && d in s.documents
    ensures Contiguous(Versions(s.documents, d.drawId, d.documentType))
            && (!Superseded(s.documents, d.id) <==> Latest(s.documents, d.drawId, d.documentType) == Some(d))
  {
    hide Reachable, LogInv, ApprovalInv, SettlementInv, FrozenInv, VerifiedInv, Superseded, Latest;
    ReachableInv(cfg, s);
    OnlyLatestUnsuperseded(s.documents, d);
  }

  /** From APPROVED on, every document of the manifest was verified by someone other than its uploader. */
  lemma ApprovedEvidenceVerified(cfg: Config, s: State, id: string, i: nat)
    requires Reachable(cfg, s) && id in s.draws && PastApproval(s.draws[id].status) && id in s.manifests
    requires i < |s.documents| && s.documents[i].id in s.manifests[id].documentIds
    ensures WasVerified(s.chain.rows, s.documents[i])
  {
    hide Reachable, LogInv, ApprovalInv, SettlementInv, DocumentsInv, FrozenInv, WasVerified, BindingHash, Approvers, ManifestComplete;
    ReachableInv(cfg, s);
    ApprovedIsCleared(cfg, s, id);
    assert s.documents[i].verified;
  }

  /** A draw whose frozen manifest lacks a required type is never approved, whatever is done next. */
  lemma IncompleteNeverApproved(cfg: Config, s: State, more: seq<Operation>, id: string)
    requires Inv(cfg, s) && id in s.draws && id in s.manifests && PackOf(cfg, s.draws[id].lockedPolicyVersion).Ok?
    requires !ManifestComplete(s, id, PackOf(cfg, s.draws[id].lockedPolicyVersion).value)
    ensures var t := Run(cfg, s, more); id in t.draws && !PastApproval(t.draws[id].status)
  {
    hide Run, Inv, InManifest, BindingHash, Approvers, ManifestVerified, Grown;
    var t := Run(cfg, s, more);
    RunProgress(cfg, s, more);
    assert FreezeKept(s, t, id);
    if PastApproval(t.draws[id].status) {
      ApprovedIsCleared(cfg, t, id);
      CoverageMoves(t, s, id, PackOf(cfg, s.draws[id].lockedPolicyVersion).value);
    }
  }

  lemma CoverageMoves(t: State, s: State, id: string, pack: PolicyPack)
    requires ManifestComplete(t, id, pack) && forall documentType :: InManifest(s, id, documentType) <==> InManifest(t, id, documentType)
    ensures ManifestComplete(s, id, pack)
  {
    hide InManifest;
  }

  /** A draw once evaluated to HOLD is never approved, whatever is done next. */
  lemma HoldNeverApproved(cfg: Config, s: State, env: Env, subject: string, drawId: string, key: string, more: seq<Operation>)
    requires Reachable(cfg, s) && Evaluate(cfg, s, env, subject, drawId, key).Ok? && !KeyUsed(s.chain.rows, key)
    requires var t := Evaluate(cfg, s, env, subject, drawId, key).value;
             env.id(0, 0) in t.evaluations && !t.evaluations[env.id(0, 0)].passed
    ensures var u := Run(cfg, Evaluate(cfg, s, env, subject, drawId, key).value, more);
            drawId in u.draws && !PastApproval(u.draws[drawId].status)
  {
    hide Reachable, Run, Inv, EvaluateChange, Evaluate, KeyUsed;
    var t := Evaluate(cfg, s, env, subject, drawId, key).value;
    ReachableInv(cfg, s);
    EvaluateKeepsInv(cfg, s, env, subject, drawId, key);
    StoredUnder(cfg, s);
    EvaluateChanges(cfg, s, env, subject, drawId, key);
    HoldIsIncomplete(cfg, s, t, env, subject, drawId, key);
    IncompleteNeverApproved(cfg, t, more, drawId);
  }

  lemma HoldIsIncomplete(cfg: Config, s: State, t: State, env: Env, subject: string, drawId: string, key: string)
    requires Inv(cfg, t) && EvaluateChange(cfg, s, t, env, subject, drawId, key) && !t.evaluations[env.id(0, 0)].passed
    requires Keyed(s.draws)
    ensures drawId in t.draws && drawId in t.manifests && PackOf(cfg, t.draws[drawId].lockedPolicyVersion).Ok?
    ensures !ManifestComplete(t, drawId, PackOf(cfg, t.draws[drawId].lockedPolicyVersion).value)
  {
    hide LogInv, ApprovalInv, SettlementInv, EvidenceInv, Extended, KeyUsed, RowChecks, InManifest, StatusName;
    ApprovedHasManifest(cfg, t, drawId);
    forall documentType ensures InManifest(s, drawId, documentType) <==> InManifest(t, drawId, documentType) {
      SameCoverage(s, t, drawId, documentType);
    }
  }

  lemma SameCoverage(s: State, t: State, id: string, documentType: string)
    requires s.documents == t.documents && s.manifests == t.manifests
    ensures InManifest(s, id, documentType) <==> InManifest(t, id, documentType)
  {
  }

  // ---------------------------------------------------------------------------
  // Separation of duties
  // ---------------------------------------------------------------------------

  /** The author of an instruction is not the draw's requester and holds no decision on it, then or later. */
  lemma DutiesSeparated(cfg: Config, s: State, k: (string, string))
    requires Reachable(cfg, s) && k in s.instructions
    ensures var i := s.instructions[k];
            i.drawId in s.draws && i.instructedBy != s.draws[i.drawId].requestedBy
            && forall n :: 0 <= n < |s.decisions| && s.decisions[n].drawId == i.drawId ==> s.decisions[n].approver != i.instructedBy
  {
    hide Reachable, LogInv, EvidenceInv, ApprovalInv, SettlementInv;
    ReachableInv(cfg, s);
    InstructionIsRight(s, k);
  }

  lemma InstructionIsRight(s: State, k: (string, string))
    requires SettlementInv(s) && k in s.instructions
    ensures InstructionRight(s.draws, s.decisions, s.instructions[k])
  {
    hide ConfirmationsInv, RecordsInv, OnePerDraw, StatusesRight;
  }

  /** An instruction asks for exactly what was approved, and a draw has at most one. */
  lemma InstructionBindsApproval(cfg: Config, s: State, k: (string, string), l: (string, string))
    requires Reachable(cfg, s) && k in s.instructions && l in s.instructions
    ensures var i := s.instructions[k];
            i.drawId in s.draws
            && var d := s.draws[i.drawId];
               d.amountApproved == Some(i.amount) && d.currency == i.currency && d.payeeBankAccountId == i.payeeBankAccountId
               && d.lockedPolicyVersion == i.policyVersion && d.lockedManifestHash == i.manifestHash && d.approvalBindingHash == i.bindingHash
               && (s.instructions[l].drawId == i.drawId ==> l == k)
  {
    hide Reachable, LogInv, EvidenceInv, ApprovalInv, ConfirmationsInv, RecordsInv, EachRight, StatusesRight;
    ReachableInv(cfg, s);
    InstructionIsRight(s, k);
  }

  // ---------------------------------------------------------------------------
  // Settlement
  // ---------------------------------------------------------------------------

  /** No reference is confirmed twice, and no confirmation was entered and repeated by the same person. */
  lemma OneConfirmationPerReference(cfg: Config, s: State, i: nat, j: nat)
    requires Reachable(cfg, s) && i < j < |s.confirmations|
    ensures (s.confirmations[i].partner, s.confirmations[i].reference) != (s.confirmations[j].partner, s.confirmations[j].reference)
            && s.confirmations[i].enteredBy != s.confirmations[i].secondEntryBy
  {
    hide Reachable, LogInv, EvidenceInv, ApprovalInv, InstructionsInv, RecordsInv;
    ReachableInv(cfg, s);
  }

  /** A draw is RECONCILED exactly when it has a MATCHED record, and it has no second one. */
  lemma ReconciledByOneMatch(cfg: Config, s: State, id: string)
    requires Reachable(cfg, s)
    ensures id in s.draws && s.draws[id].status.Reconciled? <==> HasMatch(s.records, id)
    ensures forall i, j :: 0 <= i < |s.records| && 0 <= j < |s.records| && ReconcilesDraw(s.records[i], id) && ReconcilesDraw(s.records[j], id) ==> i == j
  {
    hide Reachable, LogInv, EvidenceInv, ApprovalInv, InstructionsInv, ConfirmationsInv;
    ReachableInv(cfg, s);
    if HasMatch(s.records, id) {
      var i :| 0 <= i < |s.records| && Matched(s.records[i]) && s.records[i].drawId == Some(id);
      assert MatchRight(s.draws, s.instructions, s.confirmations, s.records[i]);
    }
  }

  predicate ReconcilesDraw(r: ReconciliationRecord, id: string) {
    Matched(r) && r.drawId == Some(id)
  }

  /** The amount of the confirmation with this id. */
  function ConfirmedAmount(confirmations: seq<Confirmation>, id: Option<string>): int {
    if confirmations == [] then 0
    else if Some(Last(confirmations).id) == id then Last(confirmations).amount
    else ConfirmedAmount(Front(confirmations), id)
  }

  function MatchedAmount(confirmations: seq<Confirmation>): ReconciliationRecord -> int {
    r => if Matched(r) then ConfirmedAmount(confirmations, r.confirmationId) else 0
  }

  function ApprovedAmount(d: DrawRequest): int {
    if d.amountApproved.Some? then d.amountApproved.value else 0
  }

  /** The approved amounts of a set of draws. */
  ghost function ApprovedTotal(draws: map<string, DrawRequest>, ids: set<string>): int
    requires ids <= draws.Keys
  {
    if ids == {} then 0
    else
      var id :| id in ids;
      ApprovedAmount(draws[id]) + ApprovedTotal(draws, ids - {id})
  }

  lemma {:induction false} ApprovedTotalSplits(draws: map<string, DrawRequest>, ids: set<string>, x: string)
    requires ids <= draws.Keys && x in ids
    ensures ApprovedTotal(draws, ids) == ApprovedAmount(draws[x]) + ApprovedTotal(draws, ids - {x})
    decreases |ids|
  {
    var id :| id in ids && ApprovedTotal(draws, ids) == ApprovedAmount(draws[id]) + ApprovedTotal(draws, ids - {id});
    if id != x {
      ApprovedTotalSplits(draws, ids - {id}, x);
      ApprovedTotalSplits(draws, ids - {x}, id);
      assert ids - {id} - {x} == ids - {x} - {id};
    }
  }

  lemma {:induction false} ConfirmedAmountIs(confirmations: seq<Confirmation>, j: nat)
    requires j < |confirmations| && forall a, b :: 0 <= a < b < |confirmations| ==> confirmations[a].id != confirmations[b].id
    ensures ConfirmedAmount(confirmations, Some(confirmations[j].id)) == confirmations[j].amount
  {
    if j < |confirmations| - 1 { ConfirmedAmountIs(Front(confirmations), j); }
  }

  function MatchedDraws(records: seq<ReconciliationRecord>): set<string> {
    set i | 0 <= i < |records| && Matched(records[i]) && records[i].drawId.Some? :: records[i].drawId.value
  }

  /** A match confirms the amount its draw was approved for. */
  lemma MatchConfirmsApproved(s: State, r: ReconciliationRecord)
    requires SettlementInv(s) && MatchRight(s.draws, s.instructions, s.confirmations, r)
    ensures ConfirmedAmount(s.confirmations, r.confirmationId) == ApprovedAmount(s.draws[r.drawId.value])
  {
    var k, j :| k in s.instructions && 0 <= j < |s.confirmations| && Settles(r, k, s.instructions[k], s.confirmations[j]);
    InstructionIsRight(s, k);
    hide RecordsInv, InstructionsInv;
    ConfirmedAmountIs(s.confirmations, j);
  }

  ghost predicate MatchesRight(s: State, records: seq<ReconciliationRecord>) {
    (forall i :: 0 <= i < |records| && Matched(records[i]) ==> MatchRight(s.draws, s.instructions, s.confirmations, records[i]))
    && (forall i, j :: 0 <= i < j < |records| && Matched(records[i]) && Matched(records[j]) ==> records[i].drawId != records[j].drawId)
  }

  lemma MatchedDrawsGrow(s: State, records: seq<ReconciliationRecord>)
    requires records != [] && MatchesRight(s, records)
    ensures var r := Last(records);
            if Matched(r) then
              r.drawId.Some? && r.drawId.value !in MatchedDraws(Front(records))
              && MatchedDraws(records) == MatchedDraws(Front(records)) + {r.drawId.value}
            else MatchedDraws(records) == MatchedDraws(Front(records))
  {
    var r := Last(records);
    assert forall i :: 0 <= i < |records| - 1 ==> Front(records)[i] == records[i];
    forall id | id in MatchedDraws(records) && !(Matched(r) && r.drawId == Some(id)) ensures id in MatchedDraws(Front(records)) {
      var i :| 0 <= i < |records| && Matched(records[i]) && records[i].drawId == Some(id);
      assert Front(records)[i] == records[i];
    }
  }

  lemma {:induction false} MatchedSums(s: State, records: seq<ReconciliationRecord>)
    requires SettlementInv(s) && MatchesRight(s, records)
    ensures MatchedDraws(records) <= s.draws.Keys
    ensures SumOver(records, MatchedAmount(s.confirmations)) == ApprovedTotal(s.draws, MatchedDraws(records))
  {
    hide SettlementInv;
    if records == [] {
      assert MatchedDraws(records) == {};
    } else {
      var front, r := Front(records), Last(records);
      assert MatchesRight(s, front) by { assert forall i :: 0 <= i < |front| ==> front[i] == records[i]; }
      MatchedSums(s, front);
      MatchedDrawsGrow(s, records);
      if Matched(r) {
        assert MatchRight(s.draws, s.instructions, s.confirmations, r);
        hide MatchesRight, MatchedDraws, MatchRight;
        MatchConfirmsApproved(s, r);
        ApprovedTotalSplits(s.draws, MatchedDraws(records), r.drawId.value);
        assert MatchedDraws(records) - {r.drawId.value} == MatchedDraws(front);
      }
    }
  }

  function ReconciledDraws(draws: map<string, DrawRequest>): set<string> {
    set id | id in draws && draws[id].status.Reconciled?
  }

  /** What MATCHED records confirm in all is what RECONCILED draws were approved for in all. */
  lemma Conservation(cfg: Config, s: State)
    requires Reachable(cfg, s)
    ensures SumOver(s.records, MatchedAmount(s.confirmations)) == ApprovedTotal(s.draws, ReconciledDraws(s.draws))
  {
    hide Reachable, LogInv, EvidenceInv, ApprovalInv, InstructionsInv, ConfirmationsInv;
    ReachableInv(cfg, s);
    MatchedSums(s, s.records);
    forall id ensures id in MatchedDraws(s.records) <==> id in ReconciledDraws(s.draws) {
      if id in MatchedDraws(s.records) {
        var i :| 0 <= i < |s.records| && Matched(s.records[i]) && s.records[i].drawId == Some(id);
        assert MatchRight(s.draws, s.instructions, s.confirmations, s.records[i]);
      }
      if id in ReconciledDraws(s.draws) {
        assert HasMatch(s.records, id);
        var i :| 0 <= i < |s.records| && Matched(s.records[i]) && s.records[i].drawId == Some(id);
        assert id == s.records[i].drawId.value;
      }
    }
    assert MatchedDraws(s.records) == ReconciledDraws(s.draws);
  }

  /** A successful import reports on every row of the file once, in order, as recorded. */
  lemma ImportReportsEveryRow(cfg: Config, s: State, env: Env, entrant: string, confirmer: string, batchKey: string,
                              first: string, second: string)
    requires Reachable(cfg, s) && ImportCsv(cfg, s, env, entrant, confirmer, batchKey, first, second).Ok?
    ensures var (t, results) := ImportCsv(cfg, s, env, entrant, confirmer, batchKey, first, second).value;
            ParseConfirmationCsv(first).Some? && RowsReported(s, t, ParseConfirmationCsv(first).value, results)
  {
    hide Reachable, Inv, RowsReported, ImportRows, AuditText, RowsJson;
    ReachableInv(cfg, s);
    ImportKeepsInv(cfg, s, env, entrant, confirmer, batchKey, first, second);
  }

  /** The service's match test implies the database's guard on MATCHED records. */
  lemma MatchPassesGuard(cfg: Config, s: State, env: Env, ic: ImportContext, row: CsvRow, u: State)
    requires var k := (row.externalPartnerId, row.settlementReference);
             k in s.instructions && s.instructions[k].payeeBankAccountId in env.accounts
             && Mismatches(row, s.instructions[k], env.accounts[s.instructions[k].payeeBankAccountId].accountRef) == []
             && k in u.instructions && u.instructions[k] == s.instructions[k].(status := ConfirmedByPartner)
             && u.confirmations == s.confirmations + [NewConfirmation(cfg, env, ic, row, Some(s.instructions[k].id))]
    ensures var i := s.instructions[(row.externalPartnerId, row.settlementReference)];
            var c := NewConfirmation(cfg, env, ic, row, Some(i.id));
            MatchGuard(u, env, ReconciliationRecord(Some(i.drawId), Some(i.id), Some(c.id), [], ic.entrant))
  {
    var k := (row.externalPartnerId, row.settlementReference);
    var i := s.instructions[k];
    var c := NewConfirmation(cfg, env, ic, row, Some(i.id));
    NoMismatchMeansAgreement(cfg, env, ic, row, i, env.accounts[i.payeeBankAccountId].accountRef);
    ConfirmationNames(cfg, env, ic, row, Some(i.id));
    hide NewConfirmation, Mismatches;
    assert u.confirmations[|s.confirmations|] == c;
    assert Agrees(env, k, u.instructions[k], u.confirmations[|s.confirmations|], i.drawId);
  }

  // ---------------------------------------------------------------------------
  // Idempotence
  // ---------------------------------------------------------------------------

  /** The idempotency key an operation is called with. */
  function KeyOf(op: Operation): string {
    match op
    case CreatesDraft(_, _, draft) => draft.idempotencyKey
    case UploadsEvidence(_, _, upload) => upload.idempotencyKey
    case VerifiesEvidence(_, _, _, key) => key
    case Submits(_, _, _, key) => key
    case Evaluates(_, _, _, key) => key
    case Approves(_, _, approval) => approval.idempotencyKey
    case Instructs(_, _, instruction) => instruction.idempotencyKey
    case StagesCsv(_, _, key, _) => key
    case ConfirmsCsv(_, _, key, _) => key
    case ImportsCsv(_, _, _, key, _, _) => key
  }

  /** Apart from creating drafts and staging batches, no operation does anything under a key the log already has. */
  lemma UsedKeyChangesNothing(cfg: Config, s: State, op: Operation)
    requires !op.CreatesDraft? && !op.StagesCsv? && KeyUsed(s.chain.rows, KeyOf(op))
    ensures Step(cfg, s, op) == s
  {
    hide KeyUsed, TransitionDraw, SaveDraw, Log, ImportRows, ParseConfirmationCsv, AuditText, CurrentDocuments, FindDocument, NewDocument,
         RequireRole, ContextOf, ParseMinor;
  }

  /** Creating a draft looks only at the keys of draws: it does nothing exactly when one of them has the key. */
  lemma CreateReplaysExactly(cfg: Config, s: State, env: Env, subject: string, input: DraftInput)
    requires Reachable(cfg, s) && CreateDraft(cfg, s, env, subject, input).Ok?
    ensures CreateDraft(cfg, s, env, subject, input).value == s <==> DrawWithKey(s.draws, input.idempotencyKey)
  {
    hide Reachable, Inv, CreateDraft, DrawWithKey, Extended, RowChecks, NumberTaken, ParseMinor;
    ReachableInv(cfg, s);
    StoredUnder(cfg, s);
    CreateChanges(cfg, s, env, subject, input);
  }

  /** Staging looks only at the staged batches. */
  lemma StageReplaysExactly(cfg: Config, s: State, env: Env, subject: string, batchKey: string, csv: string)
    requires Reachable(cfg, s) && StageCsv(cfg, s, env, subject, batchKey, csv).Ok?
    ensures StageCsv(cfg, s, env, subject, batchKey, csv).value == s <==> batchKey in s.batches
  {
    hide Reachable, Inv, StageCsv, Extended, Digest;
    ReachableInv(cfg, s);
    StoredUnder(cfg, s);
    StageChanges(cfg, s, env, subject, batchKey, csv);
  }

  lemma ExtendedUsesKey(cfg: Config, before: Chain, after: Chain, entry: Entry)
    requires Extended(cfg, before, after, entry)
    ensures KeyUsed(after.rows, entry.idempotencyKey)
  {
    hide Sound;
    assert after.rows[|before.rows|] in after.rows;
  }

  /** An accepted operation leaves its key in the log, where drafts leave it on the draw and batches in their table. */
  lemma SuccessUsesKey(cfg: Config, s: State, op: Operation)
    requires Inv(cfg, s) && Perform(cfg, s, op).Ok? && !op.CreatesDraft? && !op.StagesCsv?
    ensures KeyUsed(Perform(cfg, s, op).value.chain.rows, KeyOf(op))
  {
    hide Inv, KeyUsed, UploadEvidence, VerifyEvidence, Submit, Evaluate, Approve, Instruct, ImportCsv, RowsReported;
    if KeyUsed(s.chain.rows, KeyOf(op)) {
      KeyStaysUsed(cfg, s, op);
    } else {
      match op
      case UploadsEvidence(env, subject, upload) => UploadUsesKey(cfg, s, env, subject, upload);
      case VerifiesEvidence(env, subject, documentId, key) => VerifyUsesKey(cfg, s, env, subject, documentId, key);
      case Submits(env, subject, drawId, key) => SubmitUsesKey(cfg, s, env, subject, drawId, key);
      case Evaluates(env, subject, drawId, key) => EvaluateUsesKey(cfg, s, env, subject, drawId, key);
      case Approves(env, subject, approval) => ApproveUsesKey(cfg, s, env, subject, approval);
      case Instructs(env, subject, instruction) => InstructUsesKey(cfg, s, env, subject, instruction);
      case ConfirmsCsv(env, subject, key, csv) =>
        ImportKeepsInv(cfg, s, env, s.batches[key].subject, subject, key, s.batches[key].csv, csv);
      case ImportsCsv(env, subject, confirmer, key, first, second) =>
        ImportKeepsInv(cfg, s, env, subject, confirmer, key, first, second);
    }
  }

  lemma KeyStaysUsed(cfg: Config, s: State, op: Operation)
    requires Inv(cfg, s) && Perform(cfg, s, op).Ok? && KeyUsed(s.chain.rows, KeyOf(op))
    ensures KeyUsed(Perform(cfg, s, op).value.chain.rows, KeyOf(op))
  {
    hide Inv, KeyUsed, Perform, FreezeKept;
    StepProgress(cfg, s, op);
    UsedStaysUsed(s.chain.rows, Step(cfg, s, op).chain.rows, KeyOf(op));
  }

  lemma UploadUsesKey(cfg: Config, s: State, env: Env, subject: string, input: UploadInput)
    requires Inv(cfg, s) && UploadEvidence(cfg, s, env, subject, input).Ok? && !KeyUsed(s.chain.rows, input.idempotencyKey)
    ensures KeyUsed(UploadEvidence(cfg, s, env, subject, input).value.chain.rows, input.idempotencyKey)
  {
    StoredUnder(cfg, s);
    hide Inv, UploadEvidence, Extended, KeyUsed, NewDocument;
    UploadChanges(cfg, s, env, subject, input);
    var t := UploadEvidence(cfg, s, env, subject, input).value;
    var doc := NewDocument(cfg, s, env, subject, s.draws[input.drawId], input);
    ExtendedUsesKey(cfg, s.chain, t.chain, Entry(if doc.supersedes.Some? then "EVIDENCE_SUPERSEDED" else "EVIDENCE_UPLOADED",
                                                 s.draws[input.drawId].id, None, None, input.idempotencyKey, subject));
  }

  lemma VerifyUsesKey(cfg: Config, s: State, env: Env, subject: string, documentId: string, key: string)
    requires Inv(cfg, s) && VerifyEvidence(cfg, s, env, subject, documentId, key).Ok? && !KeyUsed(s.chain.rows, key)
    ensures KeyUsed(VerifyEvidence(cfg, s, env, subject, documentId, key).value.chain.rows, key)
  {
    StoredUnder(cfg, s);
    hide Inv, VerifyEvidence, Extended, KeyUsed, FindDocument;
    VerifyChanges(cfg, s, env, subject, documentId, key);
    var t := VerifyEvidence(cfg, s, env, subject, documentId, key).value;
    var i := FindDocument(s.documents, documentId).value;
    ExtendedUsesKey(cfg, s.chain, t.chain, Entry("EVIDENCE_VERIFIED", s.documents[i].drawId, None, None, key, subject));
  }

  lemma SubmitUsesKey(cfg: Config, s: State, env: Env, subject: string, drawId: string, key: string)
    requires Inv(cfg, s) && Submit(cfg, s, env, subject, drawId, key).Ok? && !KeyUsed(s.chain.rows, key)
    ensures KeyUsed(Submit(cfg, s, env, subject, drawId, key).value.chain.rows, key)
  {
    StoredUnder(cfg, s);
    hide Inv, Submit, Extended, KeyUsed, StatusName, CurrentDocuments, ManifestHash;
    SubmitChanges(cfg, s, env, subject, drawId, key);
    var t := Submit(cfg, s, env, subject, drawId, key).value;
    ExtendedUsesKey(cfg, s.chain, t.chain, MoveEntry(s.draws[drawId], Submitted, "DRAW_SUBMITTED", key, subject));
  }

  lemma EvaluateUsesKey(cfg: Config, s: State, env: Env, subject: string, drawId: string, key: string)
    requires Inv(cfg, s) && Evaluate(cfg, s, env, subject, drawId, key).Ok? && !KeyUsed(s.chain.rows, key)
    ensures KeyUsed(Evaluate(cfg, s, env, subject, drawId, key).value.chain.rows, key)
  {
    StoredUnder(cfg, s);
    hide Inv, Evaluate, Extended, KeyUsed, StatusName, ManifestComplete;
    EvaluateChanges(cfg, s, env, subject, drawId, key);
    var t := Evaluate(cfg, s, env, subject, drawId, key).value;
    ExtendedUsesKey(cfg, s.chain, t.chain, MoveEntry(s.draws[drawId], UnderReview, "DRAW_POLICY_EVALUATED", key, subject));
  }

  lemma ApproveUsesKey(cfg: Config, s: State, env: Env, subject: string, input: ApproveInput)
    requires Inv(cfg, s) && Approve(cfg, s, env, subject, input).Ok? && !KeyUsed(s.chain.rows, input.idempotencyKey)
    ensures KeyUsed(Approve(cfg, s, env, subject, input).value.chain.rows, input.idempotencyKey)
  {
    StoredUnder(cfg, s);
    hide Inv, Approve, Extended, KeyUsed, StatusName, BindingHash, Cleared, DecisionMade, Approvers, RowChecks, ParseMinor;
    ApproveChanges(cfg, s, env, subject, input);
    var t := Approve(cfg, s, env, subject, input).value;
    var d := s.draws[input.drawId];
    if t.draws == s.draws {
      ExtendedUsesKey(cfg, s.chain, t.chain, Entry("APPROVAL_RECORDED", d.id, None, None, input.idempotencyKey, subject));
    } else {
      ExtendedUsesKey(cfg, s.chain, t.chain, MoveEntry(d, Approved, "DRAW_APPROVED", input.idempotencyKey, subject));
    }
  }

  lemma InstructUsesKey(cfg: Config, s: State, env: Env, subject: string, input: InstructInput)
    requires Inv(cfg, s) && Instruct(cfg, s, env, subject, input).Ok? && !KeyUsed(s.chain.rows, input.idempotencyKey)
    ensures KeyUsed(Instruct(cfg, s, env, subject, input).value.chain.rows, input.idempotencyKey)
  {
    StoredUnder(cfg, s);
    hide Inv, Instruct, Extended, KeyUsed, StatusName, InstructionAllowed, RowChecks;
    InstructChanges(cfg, s, env, subject, input);
    var t := Instruct(cfg, s, env, subject, input).value;
    ExtendedUsesKey(cfg, s.chain, t.chain,
                    MoveEntry(s.draws[input.drawId], SettlementInstructed, "DRAW_SETTLEMENT_INSTRUCTED", input.idempotencyKey, subject));
  }

  /** The same call at another time and in other surroundings. */
  function Again(op: Operation, env: Env): Operation {
    match op
    case CreatesDraft(_, subject, draft) => CreatesDraft(env, subject, draft)
    case UploadsEvidence(_, subject, upload) => UploadsEvidence(env, subject, upload)
    case VerifiesEvidence(_, subject, documentId, key) => VerifiesEvidence(env, subject, documentId, key)
    case Submits(_, subject, drawId, key) => Submits(env, subject, drawId, key)
    case Evaluates(_, subject, drawId, key) => Evaluates(env, subject, drawId, key)
    case Approves(_, subject, approval) => Approves(env, subject, approval)
    case Instructs(_, subject, instruction) => Instructs(env, subject, instruction)
    case StagesCsv(_, subject, key, csv) => StagesCsv(env, subject, key, csv)
    case ConfirmsCsv(_, subject, key, csv) => ConfirmsCsv(env, subject, key, csv)
    case ImportsCsv(_, subject, confirmer, key, first, second) => ImportsCsv(env, subject, confirmer, key, first, second)
  }

  /** Repeating an accepted operation, after whatever further operations and in whatever surroundings, changes no table and no event. */
  lemma RepeatChangesNothing(cfg: Config, s: State, op: Operation, more: seq<Operation>, later: Env)
    requires Reachable(cfg, s) && Perform(cfg, s, op).Ok?
    ensures var t := Run(cfg, Perform(cfg, s, op).value, more); Step(cfg, t, Again(op, later)) == t
  {
    hide Reachable, Inv, Perform, Step, KeyUsed, DrawWithKey, FreezeKept;
    ReachableInv(cfg, s);
    var done := Perform(cfg, s, op).value;
    AcceptedKeepsInv(cfg, s, op);
    RunProgress(cfg, done, more);
    var t := Run(cfg, done, more);
    if op.CreatesDraft? {
      CreatedIsKeyed(cfg, s, op.env, op.subject, op.draft);
      KeyedDrawStays(done, t, op.draft.idempotencyKey);
      RepeatedCreate(cfg, t, op.subject, op.draft, later);
    } else if op.StagesCsv? {
      StagedIsListed(cfg, s, op.env, op.subject, op.key, op.csv);
      RepeatedStage(cfg, t, op.subject, op.key, op.csv, later);
    } else {
      SuccessUsesKey(cfg, s, op);
      UsedStaysUsed(done.chain.rows, t.chain.rows, KeyOf(op));
      UsedKeyChangesNothing(cfg, t, Again(op, later));
    }
  }

  lemma AcceptedKeepsInv(cfg: Config, s: State, op: Operation)
    requires Inv(cfg, s) && Perform(cfg, s, op).Ok?
    ensures Inv(cfg, Perform(cfg, s, op).value)
  {
    hide Inv, Perform;
    StepKeepsInv(cfg, s, op);
  }

  lemma CreatedIsKeyed(cfg: Config, s: State, env: Env, subject: string, input: DraftInput)
    requires Inv(cfg, s) && Perform(cfg, s, CreatesDraft(env, subject, input)).Ok?
    ensures DrawWithKey(Perform(cfg, s, CreatesDraft(env, subject, input)).value.draws, input.idempotencyKey)
  {
    StoredUnder(cfg, s);
    hide Inv, Extended, RowChecks, NumberTaken, ParseMinor, CreateDraft;
    CreateChanges(cfg, s, env, subject, input);
    var t := CreateDraft(cfg, s, env, subject, input).value;
    if !DrawWithKey(s.draws, input.idempotencyKey) {
      assert t.draws[env.id(0, 0)].idempotencyKey == input.idempotencyKey;
    }
  }

  lemma KeyedDrawStays(s: State, t: State, key: string)
    requires DrawWithKey(s.draws, key) && EntriesKept(s, t)
    ensures DrawWithKey(t.draws, key)
  {
    var id :| id in s.draws && s.draws[id].idempotencyKey == key;
    assert t.draws[id].idempotencyKey == key;
  }

  lemma RepeatedCreate(cfg: Config, t: State, subject: string, input: DraftInput, later: Env)
    requires DrawWithKey(t.draws, input.idempotencyKey)
    ensures Step(cfg, t, CreatesDraft(later, subject, input)) == t
  {
    hide DrawWithKey, ParseMinor, Log, RequireRole;
  }

  lemma StagedIsListed(cfg: Config, s: State, env: Env, subject: string, batchKey: string, csv: string)
    requires Inv(cfg, s) && Perform(cfg, s, StagesCsv(env, subject, batchKey, csv)).Ok?
    ensures batchKey in Perform(cfg, s, StagesCsv(env, subject, batchKey, csv)).value.batches
  {
    StoredUnder(cfg, s);
    hide Inv, Extended, StageCsv, Digest, ParseConfirmationCsv;
    StageChanges(cfg, s, env, subject, batchKey, csv);
  }

  lemma RepeatedStage(cfg: Config, t: State, subject: string, batchKey: string, csv: string, later: Env)
    requires batchKey in t.batches
    ensures Step(cfg, t, StagesCsv(later, subject, batchKey, csv)) == t
  {
    hide ParseConfirmationCsv, Log, RequireRole, Digest;
  }
}
