/** What each operation of the workflow changes when it succeeds, table by table. */
module WorkflowChanges {
  import opened CanonicalJson
  import opened Ledger
  import opened DrawMachine
  import opened ConfirmationCsv
  import opened Workflow

  // ---------------------------------------------------------------------------
  // The log
  // ---------------------------------------------------------------------------

  /** What the workflow's rules read in a logged event. */
  datatype Entry = Entry(
    eventType: string,
    aggregateId: string,
    stateBefore: Option<string>,
    stateAfter: Option<string>,
    idempotencyKey: string,
    actorId: string)

  function EntryOf(e: Envelope): Entry {
    Entry(e.eventType, e.aggregateId, e.stateBefore, e.stateAfter, e.idempotencyKey, e.actorId)
  }

  function InputEntry(input: AppendInput): Entry {
    Entry(input.eventType, input.aggregateId, input.stateBefore, input.stateAfter, input.idempotencyKey, input.actorId)
  }

  /** The chain grew by exactly this event. */
  ghost predicate Extended(cfg: Config, before: Chain, after: Chain, entry: Entry) {
    (Sound(cfg.sha, before) ==> Sound(cfg.sha, after))
    && |after.rows| == |before.rows| + 1 && before.rows == after.rows[..|before.rows|]
    && EntryOf(after.rows[|before.rows|].envelope) == entry
  }

  /** No event has this key and type yet, so an append with them is not taken for a repetition. */
  ghost predicate Unrecorded(rows: seq<Row>, key: string, eventType: string) {
    forall i :: 0 <= i < |rows| ==> rows[i].envelope.idempotencyKey != key || rows[i].envelope.eventType != eventType
  }

  lemma UnusedIsUnrecorded(rows: seq<Row>, key: string, eventType: string)
    requires !KeyUsed(rows, key)
    ensures Unrecorded(rows, key, eventType)
  {
    forall i | 0 <= i < |rows| ensures rows[i].envelope.idempotencyKey != key {
      assert rows[i] in rows;
    }
  }

  lemma {:induction false} UnrecordedIsNotFound(rows: seq<Row>, key: string, eventType: string)
    requires Unrecorded(rows, key, eventType)
    ensures FindKeyed(rows, key, eventType).None?
  {
    if rows != [] { UnrecordedIsNotFound(rows[1..], key, eventType); }
  }

  lemma LogExtends(cfg: Config, s: State, env: Env, at: (nat, nat), input: AppendInput)
    requires Log(cfg, s, env, at, input).Ok?
    requires Unrecorded(s.chain.rows, input.idempotencyKey, input.eventType)
    ensures var t := Log(cfg, s, env, at, input).value;
            t == s.(chain := t.chain) && Extended(cfg, s.chain, t.chain, InputEntry(input))
            && Parse(AuditText(PayloadOf(input))) == Some(t.chain.rows[|s.chain.rows|].payload)
  {
    var stamp := Stamp(env.id(at.0, at.1), env.now, env.now);
    if Sound(cfg.sha, s.chain) {
      AppendKeepsSound(cfg.sha, s.chain, cfg.tenant, input, stamp, true);
    }
    hide AuditText, Parse, Sound, PayloadHash, EventHash;
    UnrecordedIsNotFound(s.chain.rows, input.idempotencyKey, input.eventType);
  }

  function MoveEntry(d: DrawRequest, after: Status, eventType: string, key: string, actor: string): Entry {
    Entry(eventType, d.id, Some(StatusName(d.status)), Some(StatusName(after)), key, actor)
  }

  // ---------------------------------------------------------------------------
  // Moving and saving a draw
  // ---------------------------------------------------------------------------

  /** Every draw is stored under its own id. */
  ghost predicate Keyed(draws: map<string, DrawRequest>) {
    forall id :: id in draws ==> draws[id].id == id
  }

  lemma TransitionExtends(cfg: Config, s: State, env: Env, at: (nat, nat), d: DrawRequest, target: Status, subject: string, role: string,
                          ctx: Option<ApprovalContext>, key: string, payload: Json)
    requires TransitionDraw(cfg, s, env, at, d, target, subject, role, ctx, key, payload).Ok?
    requires Unrecorded(s.chain.rows, key, EventForTarget(target))
    ensures var (t, next) := TransitionDraw(cfg, s, env, at, d, target, subject, role, ctx, key, payload).value;
            target in AllowedTransitions(d.status) && t == s.(chain := t.chain)
            && Extended(cfg, s.chain, t.chain, MoveEntry(d, target, EventForTarget(target), key, subject))
            && next == d.(status := target, submittedAt := next.submittedAt)
            && (target != Submitted ==> next.submittedAt == d.submittedAt)
            && (target == Approved ==> ctx.Some? && forall f :: !Blocks(f, d.amountApproved, d.amountRequested, ctx.value))
  {
    hide Log, Extended, Unrecorded, Blocks, EventForTarget, StatusName;
    LogExtends(cfg, s, env, at, MoveEvent(cfg, subject, role, d, Some(d.status), target, EventForTarget(target), key, payload));
  }

  /** The two rows agree on everything an update cannot set. */
  predicate SameIdentity(a: DrawRequest, b: DrawRequest) {
    b == a.(status := b.status, amountApproved := b.amountApproved, submittedAt := b.submittedAt,
            lockedPolicyVersion := b.lockedPolicyVersion, lockedManifestHash := b.lockedManifestHash,
            approvalBindingHash := b.approvalBindingHash, policyEvaluationId := b.policyEvaluationId,
            reconciliationStatus := b.reconciliationStatus)
  }

  lemma SaveChanges(s: State, before: DrawRequest, next: DrawRequest)
    requires SaveDraw(s, before, next).Ok? && before.id in s.draws && SameIdentity(s.draws[before.id], next)
    ensures SaveDraw(s, before, next).value == s.(draws := s.draws[before.id := next])
    ensures RowChecks(next) && LocksKept(s.draws[before.id], next) && s.draws[before.id].status == before.status
  {
  }

  // ---------------------------------------------------------------------------
  // The changes
  // ---------------------------------------------------------------------------

  ghost predicate CreateChange(cfg: Config, s: State, t: State, env: Env, subject: string, input: DraftInput) {
    var id := env.id(0, 0);
    ParseMinor(input.amountRequested).Some? && input.dealId in env.deals && input.idempotencyKey != ""
    && !DrawWithKey(s.draws, input.idempotencyKey)
    && var d := NewDraw(env, subject, env.deals[input.dealId].spvId, input, ParseMinor(input.amountRequested).value);
       Insertable(s, env, d) && t == s.(chain := t.chain, draws := s.draws[id := d])
       && Extended(cfg, s.chain, t.chain, Entry("DRAW_CREATED", id, None, Some("DRAFT"), input.idempotencyKey, subject))
  }

  /** No draw was created under a key that no draw has. */
  ghost predicate CreationsKeyed(rows: seq<Row>, draws: map<string, DrawRequest>) {
    forall i :: 0 <= i < |rows| && rows[i].envelope.eventType == "DRAW_CREATED" ==> DrawWithKey(draws, rows[i].envelope.idempotencyKey)
  }

  lemma CreateChanges(cfg: Config, s: State, env: Env, subject: string, input: DraftInput)
    requires CreateDraft(cfg, s, env, subject, input).Ok? && CreationsKeyed(s.chain.rows, s.draws)
    ensures var t := CreateDraft(cfg, s, env, subject, input).value;
            if DrawWithKey(s.draws, input.idempotencyKey) then t == s else CreateChange(cfg, s, t, env, subject, input)
  {
    hide Log, Insertable, Extended, RequireRole, ParseMinor, DrawWithKey, CreatedPayload, Unrecorded;
    if !DrawWithKey(s.draws, input.idempotencyKey) {
      var amount := ParseMinor(input.amountRequested).value;
      var role := RequireRole(env, subject, ["BorrowerSponsor", "OperationsOwner"], [input.dealId]).value;
      assert Unrecorded(s.chain.rows, input.idempotencyKey, "DRAW_CREATED") by { NoCreation(s.chain.rows, s.draws, input.idempotencyKey); }
      LogExtends(cfg, s, env, (0, 1), PlainEvent(cfg, subject, role, "DRAW_CREATED", "DRAW_REQUEST", env.id(0, 0), input.idempotencyKey,
                                                 CreatedPayload(input, amount)).(stateAfter := Some("DRAFT")));
    }
  }

  lemma NoCreation(rows: seq<Row>, draws: map<string, DrawRequest>, key: string)
    requires CreationsKeyed(rows, draws) && !DrawWithKey(draws, key)
    ensures Unrecorded(rows, key, "DRAW_CREATED")
  {
    hide DrawWithKey;
  }

  ghost predicate UploadChange(cfg: Config, s: State, t: State, env: Env, subject: string, input: UploadInput) {
    input.drawId in s.draws && s.draws[input.drawId].status.Draft? && !KeyUsed(s.chain.rows, input.idempotencyKey)
    && var doc := NewDocument(cfg, s, env, subject, s.draws[input.drawId], input);
       !DocumentExists(s.documents, doc.id) && t == s.(chain := t.chain, documents := s.documents + [doc])
       && Extended(cfg, s.chain, t.chain, Entry(if doc.supersedes.Some? then "EVIDENCE_SUPERSEDED" else "EVIDENCE_UPLOADED",
                                                s.draws[input.drawId].id, None, None, input.idempotencyKey, subject))
  }

  lemma UploadChanges(cfg: Config, s: State, env: Env, subject: string, input: UploadInput)
    requires UploadEvidence(cfg, s, env, subject, input).Ok?
    ensures var t := UploadEvidence(cfg, s, env, subject, input).value;
            if KeyUsed(s.chain.rows, input.idempotencyKey) then t == s else UploadChange(cfg, s, t, env, subject, input)
  {
    hide Log, Extended, RequireRole, KeyUsed, DocumentExists, HasContent, Latest, UploadedPayload, Unrecorded, DOCUMENT_TYPES, Digest;
    if !KeyUsed(s.chain.rows, input.idempotencyKey) {
      var d := s.draws[input.drawId];
      var role := RequireRole(env, subject, ["BorrowerSponsor", "Inspector", "OperationsOwner"], [d.dealId]).value;
      var doc := NewDocument(cfg, s, env, subject, d, input);
      var eventType := if doc.supersedes.Some? then "EVIDENCE_SUPERSEDED" else "EVIDENCE_UPLOADED";
      UnusedIsUnrecorded(s.chain.rows, input.idempotencyKey, eventType);
      LogExtends(cfg, s, env, (0, 1), PlainEvent(cfg, subject, role, eventType, "DRAW_REQUEST", d.id, input.idempotencyKey,
                                                 UploadedPayload(doc)));
    }
  }

  /** A logged verification of this document by someone other than its uploader. */
  ghost predicate VerificationOf(row: Row, doc: Document) {
    row.envelope.eventType == "EVIDENCE_VERIFIED" && row.envelope.actorId != doc.uploadedBy
    && Parse(AuditText(VerifiedPayload(doc.id, doc.contentHash))) == Some(row.payload)
  }

  ghost predicate VerifyChange(cfg: Config, s: State, t: State, subject: string, documentId: string, key: string) {
    !KeyUsed(s.chain.rows, key) && FindDocument(s.documents, documentId).Some?
    && var i := FindDocument(s.documents, documentId).value;
       t == s.(chain := t.chain, documents := s.documents[i := s.documents[i].(verified := true)])
       && Extended(cfg, s.chain, t.chain, Entry("EVIDENCE_VERIFIED", s.documents[i].drawId, None, None, key, subject))
       && VerificationOf(t.chain.rows[|s.chain.rows|], s.documents[i])
  }

  lemma VerifyChanges(cfg: Config, s: State, env: Env, subject: string, documentId: string, key: string)
    requires VerifyEvidence(cfg, s, env, subject, documentId, key).Ok?
    ensures var t := VerifyEvidence(cfg, s, env, subject, documentId, key).value;
            if KeyUsed(s.chain.rows, key) then t == s else VerifyChange(cfg, s, t, subject, documentId, key)
  {
    hide Log, RequireRole, KeyUsed, FindDocument, VerifiedPayload, Unrecorded, AuditText, Parse, Sound;
    if !KeyUsed(s.chain.rows, key) {
      var doc := s.documents[FindDocument(s.documents, documentId).value];
      var role := RequireRole(env, subject, ["OperationsOwner", "Inspector", "Underwriter", "RiskOwner"], [doc.dealId]).value;
      UnusedIsUnrecorded(s.chain.rows, key, "EVIDENCE_VERIFIED");
      LogExtends(cfg, s, env, (0, 1), PlainEvent(cfg, subject, role, "EVIDENCE_VERIFIED", "DRAW_REQUEST", doc.drawId, key,
                                                 VerifiedPayload(documentId, doc.contentHash)));
    }
  }

  ghost predicate SubmitChange(cfg: Config, s: State, t: State, env: Env, subject: string, drawId: string, key: string) {
    drawId in s.draws && !KeyUsed(s.chain.rows, key)
    && var d, documents := s.draws[drawId], CurrentDocuments(s.documents, drawId);
       d.status.Draft? && d.requestedBy == subject && documents != [] && d.dealId in env.deals
       && env.deals[d.dealId].policyVersion in cfg.packs && drawId !in s.manifests && drawId in t.draws
       && var next := d.(status := Submitted, submittedAt := t.draws[drawId].submittedAt,
                      lockedPolicyVersion := Some(env.deals[d.dealId].policyVersion),
                      lockedManifestHash := Some(ManifestHash(cfg, documents)));
       t == s.(chain := t.chain, draws := s.draws[drawId := next],
               manifests := s.manifests[drawId := Manifest(Ids(documents), ManifestHash(cfg, documents))])
       && RowChecks(next)
       && Extended(cfg, s.chain, t.chain, MoveEntry(d, Submitted, "DRAW_SUBMITTED", key, subject))
  }

  lemma SubmitChanges(cfg: Config, s: State, env: Env, subject: string, drawId: string, key: string)
    requires Submit(cfg, s, env, subject, drawId, key).Ok? && Keyed(s.draws)
    ensures var t := Submit(cfg, s, env, subject, drawId, key).value;
            if KeyUsed(s.chain.rows, key) then t == s else SubmitChange(cfg, s, t, env, subject, drawId, key)
  {
    hide TransitionDraw, SaveDraw, Extended, KeyUsed, CurrentDocuments, ManifestHash, SubmittedPayload, Unrecorded, RowChecks, StatusName, Ids;
    if !KeyUsed(s.chain.rows, key) {
      var d := s.draws[drawId];
      var documents := CurrentDocuments(s.documents, drawId);
      var hash, policyVersion := ManifestHash(cfg, documents), env.deals[d.dealId].policyVersion;
      var locked := d.(lockedPolicyVersion := Some(policyVersion), lockedManifestHash := Some(hash));
      var payload := SubmittedPayload(hash, policyVersion, documents);
      UnusedIsUnrecorded(s.chain.rows, key, "DRAW_SUBMITTED");
      TransitionExtends(cfg, s, env, (0, 1), locked, Submitted, subject, "Requester", None, key, payload);
      var (s1, next) := TransitionDraw(cfg, s, env, (0, 1), locked, Submitted, subject, "Requester", None, key, payload).value;
      SaveChanges(s1.(manifests := s1.manifests[drawId := Manifest(Ids(documents), hash)]), d, next);
      OnlyDraftIsSubmitted(d.status);
    }
  }

  lemma OnlyDraftIsSubmitted(s: Status)
    requires Submitted in AllowedTransitions(s)
    ensures s.Draft?
  {
  }

  ghost predicate EvaluateChange(cfg: Config, s: State, t: State, env: Env, subject: string, drawId: string, key: string) {
    drawId in s.draws && !KeyUsed(s.chain.rows, key)
    && var d, id := s.draws[drawId], env.id(0, 0);
       UnderReview in AllowedTransitions(d.status) && id !in s.evaluations && id in t.evaluations
       && var next := d.(status := UnderReview, policyEvaluationId := Some(id));
       t == s.(chain := t.chain, draws := s.draws[drawId := next], evaluations := t.evaluations)
       && t.evaluations == s.evaluations[id := t.evaluations[id]] && RowChecks(next) && PackOf(cfg, d.lockedPolicyVersion).Ok?
       && (t.evaluations[id].passed <==> ManifestComplete(s, drawId, PackOf(cfg, d.lockedPolicyVersion).value))
       && t.evaluations[id].drawId == drawId && Some(t.evaluations[id].policyVersion) == d.lockedPolicyVersion
       && Extended(cfg, s.chain, t.chain, MoveEntry(d, UnderReview, "DRAW_POLICY_EVALUATED", key, subject))
  }

  lemma EvaluateChanges(cfg: Config, s: State, env: Env, subject: string, drawId: string, key: string)
    requires Evaluate(cfg, s, env, subject, drawId, key).Ok? && Keyed(s.draws)
    ensures var t := Evaluate(cfg, s, env, subject, drawId, key).value;
            if KeyUsed(s.chain.rows, key) then t == s else EvaluateChange(cfg, s, t, env, subject, drawId, key)
  {
    hide TransitionDraw, SaveDraw, Extended, KeyUsed, RequireRole, EvaluatedPayload, ManifestComplete, Unrecorded, RowChecks, StatusName;
    if !KeyUsed(s.chain.rows, key) {
      var d := s.draws[drawId];
      var role := RequireRole(env, subject, ["OperationsOwner", "RiskOwner", "Underwriter", "LenderAdmin"], [d.dealId]).value;
      var pack, id := PackOf(cfg, d.lockedPolicyVersion).value, env.id(0, 0);
      var payload := EvaluatedPayload(s, drawId, id, pack);
      UnusedIsUnrecorded(s.chain.rows, key, "DRAW_POLICY_EVALUATED");
      TransitionExtends(cfg, s, env, (0, 1), d, UnderReview, subject, role, None, key, payload);
      var (s1, next) := TransitionDraw(cfg, s, env, (0, 1), d, UnderReview, subject, role, None, key, payload).value;
      var evaluation := Evaluation(drawId, d.lockedPolicyVersion.value, d.lockedManifestHash, ManifestComplete(s, drawId, pack));
      SaveChanges(s1.(evaluations := s1.evaluations[id := evaluation]), d, next.(policyEvaluationId := Some(id)));
    }
  }

  // ---------------------------------------------------------------------------
  // Approval and instruction
  // ---------------------------------------------------------------------------

  /** What a draw must have when an approval lets it pass. */
  ghost predicate Cleared(s: State, d: DrawRequest, pack: PolicyPack, approvers: set<string>) {
    ManifestComplete(s, d.id, pack) && ManifestVerified(s, d.id)
    && |approvers| >= pack.requiredApprovals && d.requestedBy !in approvers
  }

  /** The decision an approval inserts. */
  ghost predicate DecisionMade(cfg: Config, s: State, t: State, env: Env, subject: string, d: DrawRequest, amount: nat) {
    |t.decisions| == |s.decisions| + 1 && s.decisions == t.decisions[..|s.decisions|]
    && var decision := t.decisions[|s.decisions|];
       decision.drawId == d.id && decision.approver == subject && decision.bindingHash == BindingHash(cfg, d, amount)
       && DecisionAllowed(s, env, d, decision)
  }

  ghost predicate ApproveChange(cfg: Config, s: State, t: State, env: Env, subject: string, input: ApproveInput) {
    input.drawId in s.draws && !KeyUsed(s.chain.rows, input.idempotencyKey) && ParseMinor(input.amountApproved).Some?
    && var d, amount := s.draws[input.drawId], ParseMinor(input.amountApproved).value;
       d.status.UnderReview? && PackOf(cfg, d.lockedPolicyVersion).Ok? && DecisionMade(cfg, s, t, env, subject, d, amount)
       && var hash := BindingHash(cfg, d, amount);
          var next := d.(status := Approved, amountApproved := Some(amount), approvalBindingHash := Some(hash));
          if t.draws == s.draws then
            t == s.(chain := t.chain, decisions := t.decisions)
            && Extended(cfg, s.chain, t.chain, Entry("APPROVAL_RECORDED", d.id, None, None, input.idempotencyKey, subject))
          else
            t == s.(chain := t.chain, decisions := t.decisions, draws := s.draws[input.drawId := next]) && RowChecks(next)
            && Cleared(s, d, PackOf(cfg, d.lockedPolicyVersion).value, Approvers(s.decisions, d.id, hash) + {subject})
            && Extended(cfg, s.chain, t.chain, MoveEntry(d, Approved, "DRAW_APPROVED", input.idempotencyKey, subject))
  }

  lemma UnblockedIsCleared(s: State, env: Env, subject: string, d: DrawRequest, pack: PolicyPack, hash: string,
                           remaining: int, eligible: int, c: Controls, amount: int)
    requires forall f :: !Blocks(f, Some(amount), d.amountRequested, ContextOf(s, env, subject, d, pack, hash, remaining, eligible, c))
    ensures Cleared(s, d, pack, Approvers(s.decisions, d.id, hash) + {subject})
  {
    hide Approvers, ManifestComplete, ManifestVerified, OpenHoldOn, PayeeVerified, SanctionsFresh;
    var ctx := ContextOf(s, env, subject, d, pack, hash, remaining, eligible, c);
    assert !Blocks(ManifestIncomplete, Some(amount), d.amountRequested, ctx);
    assert !Blocks(ManifestItemInvalid, Some(amount), d.amountRequested, ctx);
    assert !Blocks(ApprovalsIncomplete, Some(amount), d.amountRequested, ctx);
    assert !Blocks(SelfApproval, Some(amount), d.amountRequested, ctx);
  }

  lemma InsertsDecision(s: State, env: Env, d: DrawRequest, decision: Decision, chain: Chain)
    requires InsertDecision(s.(chain := chain), env, d, decision).Ok?
    ensures InsertDecision(s.(chain := chain), env, d, decision).value == s.(chain := chain, decisions := s.decisions + [decision])
    ensures DecisionAllowed(s, env, d, decision)
  {
  }

  lemma ApproveChanges(cfg: Config, s: State, env: Env, subject: string, input: ApproveInput)
    requires Approve(cfg, s, env, subject, input).Ok? && Keyed(s.draws)
    ensures var t := Approve(cfg, s, env, subject, input).value;
            if KeyUsed(s.chain.rows, input.idempotencyKey) then t == s else ApproveChange(cfg, s, t, env, subject, input)
  {
    hide TransitionDraw, SaveDraw, Log, Extended, KeyUsed, RequireRole, DecisionPayload, Cleared, Unrecorded, RowChecks, StatusName,
         Blocks, ContextOf, BindingHash, InsertDecision, DecisionAllowed, ParseMinor;
    if !KeyUsed(s.chain.rows, input.idempotencyKey) {
      var d, amount := s.draws[input.drawId], ParseMinor(input.amountApproved).value;
      var remaining, eligible := ParseMinor(input.controls.remainingBudget).value, ParseMinor(input.controls.eligibleThisDraw).value;
      var pack := PackOf(cfg, d.lockedPolicyVersion).value;
      var role := RequireRole(env, subject, pack.approverRoles, [d.dealId, d.spvId]).value;
      var hash := BindingHash(cfg, d, amount);
      var candidate := d.(amountApproved := Some(amount), approvalBindingHash := Some(hash));
      var ctx := ContextOf(s, env, subject, d, pack, hash, remaining, eligible, input.controls);
      var decision := Decision(d.id, subject, role, d.lockedPolicyVersion, d.lockedManifestHash, hash, input.idempotencyKey);
      var payload := DecisionPayload(hash, amount, input.controls);
      UnusedIsUnrecorded(s.chain.rows, input.idempotencyKey, "APPROVAL_RECORDED");
      UnusedIsUnrecorded(s.chain.rows, input.idempotencyKey, "DRAW_APPROVED");
      if Blocks(ApprovalsIncomplete, Some(amount), d.amountRequested, ctx) {
        var recorded := PlainEvent(cfg, subject, role, "APPROVAL_RECORDED", "DRAW_REQUEST", d.id, input.idempotencyKey, payload)
          .(policyVersion := TextOr(d.lockedPolicyVersion), evidenceManifestHash := TextOr(d.lockedManifestHash));
        LogExtends(cfg, s, env, (0, 1), recorded);
        InsertsDecision(s, env, d, decision, Log(cfg, s, env, (0, 1), recorded).value.chain);
      } else {
        TransitionExtends(cfg, s, env, (0, 1), candidate, Approved, subject, role, Some(ctx), input.idempotencyKey, payload);
        var (s1, next) := TransitionDraw(cfg, s, env, (0, 1), candidate, Approved, subject, role, Some(ctx), input.idempotencyKey, payload).value;
        InsertsDecision(s, env, d, decision, s1.chain);
        SaveChanges(InsertDecision(s1, env, d, decision).value, d, next);
        UnblockedIsCleared(s, env, subject, d, pack, hash, remaining, eligible, input.controls, amount);
      }
    }
  }

  ghost predicate InstructChange(cfg: Config, s: State, t: State, env: Env, subject: string, input: InstructInput) {
    input.drawId in s.draws && !KeyUsed(s.chain.rows, input.idempotencyKey)
    && var d, k := s.draws[input.drawId], (input.externalPartnerId, input.settlementReference);
       k in t.instructions && d.amountApproved.Some?
       && var instruction := t.instructions[k];
          instruction == Instruction(instruction.id, d.id, subject, d.amountApproved.value, d.currency, d.payeeBankAccountId,
                                     d.lockedPolicyVersion, d.lockedManifestHash, d.approvalBindingHash, Sent, env.now, input.idempotencyKey)
          && InstructionAllowed(s, env, d, k.0, k.1, instruction)
          && var next := d.(status := SettlementInstructed);
             t == s.(chain := t.chain, draws := s.draws[input.drawId := next], instructions := s.instructions[k := instruction])
             && RowChecks(next)
             && Extended(cfg, s.chain, t.chain, MoveEntry(d, SettlementInstructed, "DRAW_SETTLEMENT_INSTRUCTED", input.idempotencyKey, subject))
  }

  lemma InstructionAllowedByTables(s: State, chain: Chain, env: Env, d: DrawRequest, partner: string, reference: string, instruction: Instruction)
    ensures InstructionAllowed(s.(chain := chain), env, d, partner, reference, instruction)
       <==> InstructionAllowed(s, env, d, partner, reference, instruction)
  {
  }

  lemma InstructChanges(cfg: Config, s: State, env: Env, subject: string, input: InstructInput)
    requires Instruct(cfg, s, env, subject, input).Ok? && Keyed(s.draws)
    ensures var t := Instruct(cfg, s, env, subject, input).value;
            if KeyUsed(s.chain.rows, input.idempotencyKey) then t == s else InstructChange(cfg, s, t, env, subject, input)
  {
    hide TransitionDraw, SaveDraw, Extended, KeyUsed, RequireRole, InstructedPayload, Unrecorded, RowChecks, StatusName, InstructionAllowed, Decided;
    if !KeyUsed(s.chain.rows, input.idempotencyKey) {
      var d, k := s.draws[input.drawId], (input.externalPartnerId, input.settlementReference);
      var role := RequireRole(env, subject, ["TreasuryOwner"], [d.dealId, d.spvId]).value;
      var payload := InstructedPayload(d, input);
      UnusedIsUnrecorded(s.chain.rows, input.idempotencyKey, "DRAW_SETTLEMENT_INSTRUCTED");
      TransitionExtends(cfg, s, env, (0, 1), d, SettlementInstructed, subject, role, None, input.idempotencyKey, payload);
      var (s1, next) := TransitionDraw(cfg, s, env, (0, 1), d, SettlementInstructed, subject, role, None, input.idempotencyKey, payload).value;
      var instruction := Instruction(env.id(0, 0), d.id, subject, d.amountApproved.value, d.currency, d.payeeBankAccountId,
                                     d.lockedPolicyVersion, d.lockedManifestHash, d.approvalBindingHash, Sent, env.now, input.idempotencyKey);
      InstructionAllowedByTables(s, s1.chain, env, d, k.0, k.1, instruction);
      SaveChanges(s1.(instructions := s1.instructions[k := instruction]), d, next);
    }
  }

  // ---------------------------------------------------------------------------
  // Batches
  // ---------------------------------------------------------------------------

  /** Staging events carry the keys of staged batches. */
  ghost predicate StagingsKeyed(rows: seq<Row>, batches: map<string, Batch>) {
    forall i :: 0 <= i < |rows| && rows[i].envelope.eventType == "CSV_BATCH_STAGED" ==> StagedUnder(batches, rows[i].envelope.idempotencyKey)
  }

  ghost predicate StagedUnder(batches: map<string, Batch>, key: string) {
    exists b :: b in batches && key == b + ":staged"
  }

  ghost predicate StageChange(cfg: Config, s: State, t: State, subject: string, batchKey: string, csv: string) {
    batchKey !in s.batches && t == s.(chain := t.chain, batches := s.batches[batchKey := Batch(csv, Digest(cfg, csv), subject)])
    && Extended(cfg, s.chain, t.chain, Entry("CSV_BATCH_STAGED", batchKey, None, None, batchKey + ":staged", subject))
  }

  lemma SameSuffix(a: string, b: string, suffix: string)
    requires a + suffix == b + suffix
    ensures a == b
  {
    assert |a| == |b|;
    assert (a + suffix)[..|a|] == a && (b + suffix)[..|b|] == b;
  }

  lemma NotStaged(rows: seq<Row>, batches: map<string, Batch>, batchKey: string)
    requires StagingsKeyed(rows, batches) && batchKey !in batches
    ensures Unrecorded(rows, batchKey + ":staged", "CSV_BATCH_STAGED")
  {
    forall i | 0 <= i < |rows| && rows[i].envelope.eventType == "CSV_BATCH_STAGED"
      ensures rows[i].envelope.idempotencyKey != batchKey + ":staged"
    {
      var b :| b in batches && rows[i].envelope.idempotencyKey == b + ":staged";
      if b + ":staged" == batchKey + ":staged" { SameSuffix(b, batchKey, ":staged"); }
    }
  }

  lemma StageChanges(cfg: Config, s: State, env: Env, subject: string, batchKey: string, csv: string)
    requires StageCsv(cfg, s, env, subject, batchKey, csv).Ok? && StagingsKeyed(s.chain.rows, s.batches)
    ensures var t := StageCsv(cfg, s, env, subject, batchKey, csv).value;
            if batchKey in s.batches then t == s else StageChange(cfg, s, t, subject, batchKey, csv)
  {
    hide Log, Extended, RequireRole, ParseConfirmationCsv, Unrecorded, StagingsKeyed, Digest, StagedPayload;
    if batchKey !in s.batches {
      var rows := ParseConfirmationCsv(csv).value;
      var role := RequireRole(env, subject, CSV_ENTRY_ROLES, []).value;
      NotStaged(s.chain.rows, s.batches, batchKey);
      LogExtends(cfg, s, env, (0, 1), PlainEvent(cfg, subject, role, "CSV_BATCH_STAGED", "SETTLEMENT_CONFIRMATION", batchKey,
                                                 batchKey + ":staged", StagedPayload(Digest(cfg, csv), |rows|)));
    }
  }

  // ---------------------------------------------------------------------------
  // Rows of a batch
  // ---------------------------------------------------------------------------

  /** The event types only an import logs for its rows. */
  predicate RowEventType(eventType: string) {
    eventType == "DRAW_RECONCILIATION_BREAK" || eventType == "DRAW_SETTLEMENT_CONFIRMED" || eventType == "DRAW_RECONCILED"
  }

  predicate RowSuffix(suffix: string) {
    suffix == "break" || suffix == "confirmed" || suffix == "reconciled" || suffix == "exception"
  }

  /** No event was logged yet for the rows of the batch after the first `done` ones. */
  ghost predicate Unprocessed(rows: seq<Row>, batchKey: string, done: nat) {
    forall i, n: nat, suffix :: 0 <= i < |rows| && RowEventType(rows[i].envelope.eventType) && n > done && RowSuffix(suffix) ==>
      rows[i].envelope.idempotencyKey != RowKey(batchKey, n, suffix)
  }

  lemma UnprocessedIsUnrecorded(rows: seq<Row>, batchKey: string, done: nat, suffix: string, eventType: string)
    requires Unprocessed(rows, batchKey, done) && RowSuffix(suffix) && RowEventType(eventType)
    ensures Unrecorded(rows, RowKey(batchKey, done + 1, suffix), eventType)
  {
    hide RowKey;
  }

  /** The chain grew by a break event, whatever it is filed under. */
  ghost predicate BreakLogged(cfg: Config, before: Chain, after: Chain, key: string, actor: string) {
    |after.rows| > |before.rows| && Extended(cfg, before, after,
      Entry("DRAW_RECONCILIATION_BREAK", after.rows[|before.rows|].envelope.aggregateId, None, None, key, actor))
  }

  /** A row that ends in an exception record without touching a draw. */
  ghost predicate ExceptionChange(cfg: Config, s: State, t: State, ic: ImportContext, row: CsvRow, drawId: Option<string>,
                                  instructionId: Option<string>, confirmation: Option<Confirmation>, codes: seq<Mismatch>) {
    t == s.(chain := t.chain, records := t.records, confirmations := t.confirmations)
    && t.records == s.records + [ReconciliationRecord(drawId, instructionId, if confirmation.Some? then Some(confirmation.value.id) else None, codes, ic.entrant)]
    && t.confirmations == s.confirmations + (if confirmation.Some? then [confirmation.value] else [])
    && (confirmation.Some? ==>
          !ConfirmationExists(s.confirmations, confirmation.value.id)
          && confirmation.value.amount > 0 && confirmation.value.enteredBy != confirmation.value.secondEntryBy)
    && BreakLogged(cfg, s.chain, t.chain, RowKey(ic.batchKey, ic.index + 1, "break"), ic.entrant)
  }

  lemma InsertsConfirmation(s: State, c: Confirmation, chain: Chain)
    requires InsertConfirmation(s.(chain := chain), c).Ok?
    ensures InsertConfirmation(s.(chain := chain), c).value == s.(chain := chain, confirmations := s.confirmations + [c])
    ensures !ConfirmationExists(s.confirmations, c.id) && c.amount > 0 && c.enteredBy != c.secondEntryBy
  {
  }

  lemma BreakEntry(cfg: Config, ic: ImportContext, row: CsvRow, drawId: Option<string>, codes: seq<Mismatch>)
    ensures var e := InputEntry(BreakEvent(cfg, ic, row, drawId, codes));
            e == Entry("DRAW_RECONCILIATION_BREAK", e.aggregateId, None, None, RowKey(ic.batchKey, ic.index + 1, "break"), ic.entrant)
  {
  }

  lemma ExceptionChanges(cfg: Config, s: State, env: Env, ic: ImportContext, row: CsvRow, drawId: Option<string>,
                         instructionId: Option<string>, confirmation: Option<Confirmation>, codes: seq<Mismatch>)
    requires RecordException(cfg, s, env, ic, row, drawId, instructionId, confirmation, codes).Ok?
    requires Unprocessed(s.chain.rows, ic.batchKey, ic.index)
    ensures var (t, result) := RecordException(cfg, s, env, ic, row, drawId, instructionId, confirmation, codes).value;
            ExceptionChange(cfg, s, t, ic, row, drawId, instructionId, confirmation, codes)
            && result == RowResult(ic.index + 2, row.externalPartnerId, row.settlementReference, drawId, codes)
  {
    hide Log, Unrecorded, Unprocessed, BreakEvent, RowKey, InsertConfirmation, ConfirmationExists, Sound, AuditText, Parse;
    var event := BreakEvent(cfg, ic, row, drawId, codes);
    BreakEntry(cfg, ic, row, drawId, codes);
    UnprocessedIsUnrecorded(s.chain.rows, ic.batchKey, ic.index, "break", "DRAW_RECONCILIATION_BREAK");
    LogExtends(cfg, s, env, (ic.index, 1), event);
    if confirmation.Some? {
      InsertsConfirmation(s, confirmation.value, Log(cfg, s, env, (ic.index, 1), event).value.chain);
    }
  }

  ghost predicate ExtendedTwice(cfg: Config, before: Chain, mid: Chain, after: Chain, first: Entry, second: Entry) {
    Extended(cfg, before, mid, first) && Extended(cfg, mid, after, second)
  }

  /** Two moves of one draw, through SETTLEMENT_CONFIRMED. */
  ghost predicate TwiceMoved(cfg: Config, before: Chain, after: Chain, d: DrawRequest, target: Status, ic: ImportContext, suffix: string) {
    var first := MoveEntry(d, SettlementConfirmed, "DRAW_SETTLEMENT_CONFIRMED", RowKey(ic.batchKey, ic.index + 1, "confirmed"), ic.entrant);
    var second := MoveEntry(d.(status := SettlementConfirmed), target, EventForTarget(target), RowKey(ic.batchKey, ic.index + 1, suffix), ic.entrant);
    exists mid :: ExtendedTwice(cfg, before, mid, after, first, second)
  }

  /** A row that settles the draw it names, as RECONCILED without mismatches and as an exception otherwise. */
  ghost predicate SettleChange(cfg: Config, s: State, t: State, env: Env, ic: ImportContext, row: CsvRow) {
    var k := (row.externalPartnerId, row.settlementReference);
    k in s.instructions && s.instructions[k].drawId in s.draws && s.instructions[k].payeeBankAccountId in env.accounts
    && var i, d := s.instructions[k], s.draws[s.instructions[k].drawId];
       var c := NewConfirmation(cfg, env, ic, row, Some(i.id));
       var codes := Mismatches(row, i, env.accounts[i.payeeBankAccountId].accountRef);
       var next := d.(status := if codes == [] then Reconciled else ReconciliationException,
                      reconciliationStatus := if codes == [] then MatchedStatus else ExceptionStatus);
       d.status.SettlementInstructed? && RowChecks(next)
       && !ConfirmationExists(s.confirmations, c.id) && c.amount > 0 && c.enteredBy != c.secondEntryBy
       && t == s.(chain := t.chain, draws := s.draws[d.id := next], confirmations := s.confirmations + [c],
                  instructions := s.instructions[k := i.(status := ConfirmedByPartner)],
                  records := s.records + [ReconciliationRecord(Some(d.id), Some(i.id), Some(c.id), codes, ic.entrant)])
       && TwiceMoved(cfg, s.chain, t.chain, d, next.status, ic, if codes == [] then "reconciled" else "exception")
  }

  /** The first half of a settled row: logged, confirmed, saved. */
  ghost predicate ConfirmedHalf(cfg: Config, s: State, t: State, env: Env, ic: ImportContext, row: CsvRow) {
    var k := (row.externalPartnerId, row.settlementReference);
    k in s.instructions && s.instructions[k].drawId in s.draws
    && var i, d := s.instructions[k], s.draws[s.instructions[k].drawId];
       var c := NewConfirmation(cfg, env, ic, row, Some(i.id));
       d.status.SettlementInstructed? && !ConfirmationExists(s.confirmations, c.id) && c.amount > 0 && c.enteredBy != c.secondEntryBy
       && t == s.(chain := t.chain, draws := s.draws[d.id := d.(status := SettlementConfirmed)], confirmations := s.confirmations + [c],
                  instructions := s.instructions[k := i.(status := ConfirmedByPartner)])
       && Extended(cfg, s.chain, t.chain, MoveEntry(d, SettlementConfirmed, "DRAW_SETTLEMENT_CONFIRMED",
                                                    RowKey(ic.batchKey, ic.index + 1, "confirmed"), ic.entrant))
  }

  lemma ConfirmedHalfHolds(cfg: Config, s: State, env: Env, ic: ImportContext, row: CsvRow, s1: State, confirmed: DrawRequest, s4: State)
    requires Keyed(s.draws) && Unprocessed(s.chain.rows, ic.batchKey, ic.index)
    requires var k := (row.externalPartnerId, row.settlementReference);
             k in s.instructions && s.instructions[k].drawId in s.draws
             && var i, d := s.instructions[k], s.draws[s.instructions[k].drawId];
                var c := NewConfirmation(cfg, env, ic, row, Some(i.id));
                d.status.SettlementInstructed?
                && TransitionDraw(cfg, s, env, (ic.index, 1), d, SettlementConfirmed, ic.entrant, ic.role, None,
                                  RowKey(ic.batchKey, ic.index + 1, "confirmed"), ConfirmedPayload(c.id, row)) == Ok((s1, confirmed))
                && InsertConfirmation(s1, c).Ok?
                && SaveDraw(InsertConfirmation(s1, c).value.(instructions := InsertConfirmation(s1, c).value.instructions[k := i.(status := ConfirmedByPartner)]),
                            d, confirmed) == Ok(s4)
    ensures ConfirmedHalf(cfg, s, s4, env, ic, row)
    ensures confirmed == s.draws[s.instructions[(row.externalPartnerId, row.settlementReference)].drawId].(status := SettlementConfirmed)
  {
    hide TransitionDraw, SaveDraw, InsertConfirmation, Extended, Unrecorded, Unprocessed, RowKey, RowChecks, StatusName, ConfirmedPayload,
         NewConfirmation, ConfirmationExists;
    var k := (row.externalPartnerId, row.settlementReference);
    var i, d := s.instructions[k], s.draws[s.instructions[k].drawId];
    var c := NewConfirmation(cfg, env, ic, row, Some(i.id));
    var key := RowKey(ic.batchKey, ic.index + 1, "confirmed");
    UnprocessedIsUnrecorded(s.chain.rows, ic.batchKey, ic.index, "confirmed", "DRAW_SETTLEMENT_CONFIRMED");
    TransitionExtends(cfg, s, env, (ic.index, 1), d, SettlementConfirmed, ic.entrant, ic.role, None, key, ConfirmedPayload(c.id, row));
    InsertsConfirmation(s, c, s1.chain);
    var s2 := InsertConfirmation(s1, c).value;
    SaveChanges(s2.(instructions := s2.instructions[k := i.(status := ConfirmedByPartner)]), d, confirmed);
  }

  lemma StillUnrecorded(cfg: Config, before: Chain, after: Chain, entry: Entry, key: string, eventType: string)
    requires Extended(cfg, before, after, entry) && Unrecorded(before.rows, key, eventType) && entry.eventType != eventType
    ensures Unrecorded(after.rows, key, eventType)
  {
    hide Sound;
  }

  lemma SettleChanges(cfg: Config, s: State, env: Env, ic: ImportContext, row: CsvRow)
    requires Keyed(s.draws) && Unprocessed(s.chain.rows, ic.batchKey, ic.index)
    requires var k := (row.externalPartnerId, row.settlementReference);
             k in s.instructions && s.instructions[k].drawId in s.draws
             && s.draws[s.instructions[k].drawId].status.SettlementInstructed?
             && SettleRow(cfg, s, env, ic, row, s.instructions[k]).Ok?
    ensures var k := (row.externalPartnerId, row.settlementReference);
            var (t, result) := SettleRow(cfg, s, env, ic, row, s.instructions[k]).value;
            SettleChange(cfg, s, t, env, ic, row)
            && result == RowResult(ic.index + 2, row.externalPartnerId, row.settlementReference, Some(s.instructions[k].drawId),
                                   t.records[|s.records|].codes)
  {
    hide TransitionDraw, SaveDraw, InsertConfirmation, Extended, Unrecorded, Unprocessed, RowKey, RowChecks, StatusName, ConfirmedPayload,
         ReconciledPayload, ExceptionPayload, NewConfirmation, ConfirmationExists, MatchGuard, Mismatches;
    var k := (row.externalPartnerId, row.settlementReference);
    var i, d := s.instructions[k], s.draws[s.instructions[k].drawId];
    var c := NewConfirmation(cfg, env, ic, row, Some(i.id));
    var key := RowKey(ic.batchKey, ic.index + 1, "confirmed");
    var (s1, confirmed) := TransitionDraw(cfg, s, env, (ic.index, 1), d, SettlementConfirmed, ic.entrant, ic.role, None, key, ConfirmedPayload(c.id, row)).value;
    var s2 := InsertConfirmation(s1, c).value;
    var s3 := s2.(instructions := s2.instructions[k := i.(status := ConfirmedByPartner)]);
    var s4 := SaveDraw(s3, d, confirmed).value;
    ConfirmedHalfHolds(cfg, s, env, ic, row, s1, confirmed, s4);
    var codes := Mismatches(row, i, env.accounts[i.payeeBankAccountId].accountRef);
    var record := ReconciliationRecord(Some(d.id), Some(i.id), Some(c.id), codes, ic.entrant);
    var target, suffix := if codes == [] then Reconciled else ReconciliationException, if codes == [] then "reconciled" else "exception";
    var eventType := if codes == [] then "DRAW_RECONCILED" else "DRAW_RECONCILIATION_BREAK";
    var payload := if codes == [] then ReconciledPayload(c.id, i.id) else ExceptionPayload(c.id, codes);
    var entry := MoveEntry(d, SettlementConfirmed, "DRAW_SETTLEMENT_CONFIRMED", key, ic.entrant);
    UnprocessedIsUnrecorded(s.chain.rows, ic.batchKey, ic.index, suffix, eventType);
    StillUnrecorded(cfg, s.chain, s4.chain, entry, RowKey(ic.batchKey, ic.index + 1, suffix), eventType);
    TransitionExtends(cfg, s4, env, (ic.index, 2), confirmed, target, ic.entrant, ic.role, None, RowKey(ic.batchKey, ic.index + 1, suffix), payload);
    var (s5, next) := TransitionDraw(cfg, s4, env, (ic.index, 2), confirmed, target, ic.entrant, ic.role, None,
                                     RowKey(ic.batchKey, ic.index + 1, suffix), payload).value;
    var saved := next.(reconciliationStatus := if codes == [] then MatchedStatus else ExceptionStatus);
    SaveChanges(s5.(records := s5.records + [record]), confirmed, saved);
    assert s.draws[d.id := confirmed][d.id := saved] == s.draws[d.id := saved];
    assert ExtendedTwice(cfg, s.chain, s4.chain, s5.chain, entry,
                         MoveEntry(confirmed, target, eventType, RowKey(ic.batchKey, ic.index + 1, suffix), ic.entrant));
  }
}
