/**
 * What it takes for the operations of the workflow to succeed, and the tables they
 * then leave: a sound log, an unused key, fresh ids and each operation's own conditions.
 */
module WorkflowSuccess {
  import opened CanonicalJson
  import opened EventPayloads
  import opened Ledger
  import opened DrawMachine
  import opened ConfirmationCsv
  import opened CsvRoundTrip
  import opened Workflow
  import opened WorkflowGuarantees
  import opened DraftKeys

  // ---------------------------------------------------------------------------
  // Logging along a run
  // ---------------------------------------------------------------------------

  /** All idempotency keys are among `keys`, and all event ids start with a letter before `next`. */
  ghost predicate Recorded(cfg: Config, chain: Chain, keys: set<string>, next: char) {
    && Sound(cfg.sha, chain)
    && (forall e :: e in chain.rows ==> e.envelope.idempotencyKey in keys)
    && (forall e :: e in chain.rows ==> e.envelope.eventId != "" && e.envelope.eventId[0] < next)
  }

  /** The event may be logged: its key is given and its payload is JSON. */
  ghost predicate Loggable(cfg: Config, input: AppendInput) {
    input.tenantId == cfg.tenant && input.payloadHash == "" && Valid(PayloadOf(input))
  }

  lemma RecordedIsFresh(cfg: Config, s: State, keys: set<string>, letter: char, id: string)
    requires Recorded(cfg, s.chain, keys, letter) && id != "" && id[0] == letter
    ensures FreshEventId(s, id) && Sound(cfg.sha, s.chain)
  {
    hide Sound;
  }

  lemma RecordedGrows(cfg: Config, before: Chain, after: Chain, row: Row, keys: set<string>, letter: char, next: char)
    requires Recorded(cfg, before, keys, letter) && Sound(cfg.sha, after) && letter < next
    requires after == before || after.rows == before.rows + [row]
    requires row.envelope.eventId != "" && row.envelope.eventId[0] == letter
    ensures Recorded(cfg, after, keys + {row.envelope.idempotencyKey}, next)
  {
    hide Sound;
  }

  lemma Logged(cfg: Config, s: State, env: Env, at: (nat, nat), input: AppendInput, keys: set<string>, letter: char, next: char)
    requires Recorded(cfg, s.chain, keys, letter) && GoodHash(cfg.sha) && Loggable(cfg, input)
    requires env.id(at.0, at.1) != "" && env.id(at.0, at.1)[0] == letter < next
    ensures Log(cfg, s, env, at, input).Ok?
    ensures var t := Log(cfg, s, env, at, input).value;
            t == s.(chain := t.chain) && Recorded(cfg, t.chain, keys + {input.idempotencyKey}, next)
  {
    hide Sound, GoodHash, AppendTo, Recorded, FreshEventId, Valid, PayloadOf;
    RecordedIsFresh(cfg, s, keys, letter, env.id(at.0, at.1));
    LogSucceeds(cfg, s, env, at, input);
    var stamp := Stamp(env.id(at.0, at.1), env.now, env.now);
    var r := AppendTo(cfg.sha, s.chain, cfg.tenant, input, stamp, true);
    AppendKeepsSound(cfg.sha, s.chain, cfg.tenant, input, stamp, true);
    StoredRow(cfg.sha, s.chain, cfg.tenant, input, stamp);
    if r.chain == s.chain {
      RecordedStays(cfg, r.chain, keys, input.idempotencyKey, letter, next);
    } else {
      RecordedGrows(cfg, s.chain, r.chain, r.row, keys, letter, next);
    }
  }

  lemma RecordedStays(cfg: Config, chain: Chain, keys: set<string>, key: string, letter: char, next: char)
    requires Recorded(cfg, chain, keys, letter) && letter < next
    ensures Recorded(cfg, chain, keys + {key}, next)
  {
    hide Sound;
  }

  lemma StoredRow(sha: string -> string, chain: Chain, tenant: string, input: AppendInput, stamp: Stamp)
    requires AppendTo(sha, chain, tenant, input, stamp, true).Stored?
    ensures var r := AppendTo(sha, chain, tenant, input, stamp, true);
            r.chain == chain || (r.chain.rows == chain.rows + [r.row] && r.row.envelope.eventId == stamp.eventId
                                 && r.row.envelope.idempotencyKey == input.idempotencyKey)
  {
    hide AuditText, Parse, PayloadHash, EventHash, FindKeyed, Unique;
  }

  lemma Unused(cfg: Config, chain: Chain, keys: set<string>, next: char, key: string)
    requires Recorded(cfg, chain, keys, next) && key !in keys
    ensures !KeyUsed(chain.rows, key)
  {
  }

  /** A move between allowed states is logged and gives the moved draw. */
  lemma Moved(cfg: Config, s: State, env: Env, at: (nat, nat), d: DrawRequest, target: Status, subject: string, role: string,
              ctx: Option<ApprovalContext>, key: string, payload: Json, keys: set<string>, letter: char, next: char)
    requires Recorded(cfg, s.chain, keys, letter) && GoodHash(cfg.sha) && Valid(payload)
    requires env.id(at.0, at.1) != "" && env.id(at.0, at.1)[0] == letter < next
    requires target in AllowedTransitions(d.status)
    requires target.Approved? ==> ctx.Some? && forall f: Failure :: !Blocks(f, d.amountApproved, d.amountRequested, ctx.value)
    ensures TransitionDraw(cfg, s, env, at, d, target, subject, role, ctx, key, payload).Ok?
    ensures var (t, moved) := TransitionDraw(cfg, s, env, at, d, target, subject, role, ctx, key, payload).value;
            t == s.(chain := t.chain) && Recorded(cfg, t.chain, keys + {key}, next)
            && moved == d.(status := target,
                           submittedAt := if target.Submitted? && d.submittedAt.None? then Some(env.now) else d.submittedAt)
  {
    hide Recorded, GoodHash, Blocks, Valid, Log, StatusName, EventForTarget, AllowedTransitions;
    Logged(cfg, s, env, at, MoveEvent(cfg, subject, role, d, Some(d.status), target, EventForTarget(target), key, payload), keys, letter, next);
  }

  // ---------------------------------------------------------------------------
  // What it takes for each operation to succeed
  // ---------------------------------------------------------------------------

  /** The operation's one event gets an id with this first letter. */
  predicate EventIdFrom(env: Env, letter: char) {
    env.id(0, 1) != "" && env.id(0, 1)[0] == letter
  }

  lemma CreateGoes(cfg: Config, s: State, env: Env, subject: string, input: DraftInput, keys: set<string>, letter: char, next: char)
    requires Recorded(cfg, s.chain, keys, letter) && GoodHash(cfg.sha) && EventIdFrom(env, letter) && letter < next
    requires Creatable(s, env, subject, input)
    ensures CreateDraft(cfg, s, env, subject, input).Ok?
    ensures var t, d := CreateDraft(cfg, s, env, subject, input).value,
                        NewDraw(env, subject, env.deals[input.dealId].spvId, input, ParseMinor(input.amountRequested).value);
            t == s.(chain := t.chain, draws := s.draws[d.id := d]) && Recorded(cfg, t.chain, keys + {input.idempotencyKey}, next)
  {
    hide Recorded, GoodHash, RequireRole, ParseMinor, Valid, CreatedPayload, Log, DrawWithKey, RowChecks, NumberTaken;
    var amount := ParseMinor(input.amountRequested).value;
    var role := RequireRole(env, subject, ["BorrowerSponsor", "OperationsOwner"], [input.dealId]).value;
    CreatedPayloadValid(input, amount);
    Logged(cfg, s, env, (0, 1), PlainEvent(cfg, subject, role, "DRAW_CREATED", "DRAW_REQUEST", env.id(0, 0), input.idempotencyKey,
                                           CreatedPayload(input, amount)).(stateAfter := Some("DRAFT")), keys, letter, next);
  }

  lemma UploadGoes(cfg: Config, s: State, env: Env, subject: string, input: UploadInput, keys: set<string>, letter: char, next: char)
    requires Recorded(cfg, s.chain, keys, letter) && GoodHash(cfg.sha) && EventIdFrom(env, letter) && letter < next
    requires input.content != "" && subject != "" && input.idempotencyKey != "" && input.idempotencyKey !in keys
    requires input.drawId in s.draws && s.draws[input.drawId].status.Draft? && input.documentType in DOCUMENT_TYPES
    requires RequireRole(env, subject, ["BorrowerSponsor", "Inspector", "OperationsOwner"], [s.draws[input.drawId].dealId]).Ok?
    requires !DocumentExists(s.documents, env.id(0, 0))
    ensures UploadEvidence(cfg, s, env, subject, input).Ok?
    ensures var t, doc := UploadEvidence(cfg, s, env, subject, input).value, NewDocument(cfg, s, env, subject, s.draws[input.drawId], input);
            t == s.(chain := t.chain, documents := s.documents + [doc]) && Recorded(cfg, t.chain, keys + {input.idempotencyKey}, next)
  {
    Unused(cfg, s.chain, keys, letter, input.idempotencyKey);
    hide Recorded, GoodHash, RequireRole, Valid, UploadedPayload, Log, KeyUsed, Digest, Latest, DocumentExists, DOCUMENT_TYPES;
    var d := s.draws[input.drawId];
    var role := RequireRole(env, subject, ["BorrowerSponsor", "Inspector", "OperationsOwner"], [d.dealId]).value;
    var doc := NewDocument(cfg, s, env, subject, d, input);
    UploadedPayloadValid(doc);
    Logged(cfg, s, env, (0, 1), PlainEvent(cfg, subject, role, if doc.supersedes.Some? then "EVIDENCE_SUPERSEDED" else "EVIDENCE_UPLOADED",
                                           "DRAW_REQUEST", d.id, input.idempotencyKey, UploadedPayload(doc)), keys, letter, next);
  }

  lemma VerifyGoes(cfg: Config, s: State, env: Env, subject: string, documentId: string, key: string, i: nat,
                   keys: set<string>, letter: char, next: char)
    requires Recorded(cfg, s.chain, keys, letter) && GoodHash(cfg.sha) && EventIdFrom(env, letter) && letter < next
    requires subject != "" && key != "" && key !in keys && FindDocument(s.documents, documentId) == Some(i)
    requires RequireRole(env, subject, ["OperationsOwner", "Inspector", "Underwriter", "RiskOwner"], [s.documents[i].dealId]).Ok?
    requires s.documents[i].uploadedBy != subject
    ensures VerifyEvidence(cfg, s, env, subject, documentId, key).Ok?
    ensures var t := VerifyEvidence(cfg, s, env, subject, documentId, key).value;
            t == s.(chain := t.chain, documents := s.documents[i := s.documents[i].(verified := true)])
            && Recorded(cfg, t.chain, keys + {key}, next)
  {
    Unused(cfg, s.chain, keys, letter, key);
    hide Recorded, GoodHash, RequireRole, Valid, VerifiedPayload, Log, KeyUsed, FindDocument;
    var doc := s.documents[i];
    var role := RequireRole(env, subject, ["OperationsOwner", "Inspector", "Underwriter", "RiskOwner"], [doc.dealId]).value;
    VerifiedPayloadValid(documentId, doc.contentHash);
    Logged(cfg, s, env, (0, 1), PlainEvent(cfg, subject, role, "EVIDENCE_VERIFIED", "DRAW_REQUEST", doc.drawId, key,
                                           VerifiedPayload(documentId, doc.contentHash)), keys, letter, next);
  }

  /** The draw may be saved as `next`: it is unchanged since it was read, and the row passes the database's checks. */
  predicate Savable(s: State, before: DrawRequest, next: DrawRequest) {
    before.id in s.draws && s.draws[before.id] == before && RowChecks(next) && LocksKept(before, next)
    && next == before.(status := next.status, amountApproved := next.amountApproved, submittedAt := next.submittedAt,
                       lockedPolicyVersion := next.lockedPolicyVersion, lockedManifestHash := next.lockedManifestHash,
                       approvalBindingHash := next.approvalBindingHash, policyEvaluationId := next.policyEvaluationId,
                       reconciliationStatus := next.reconciliationStatus)
  }

  lemma Saves(s: State, before: DrawRequest, next: DrawRequest)
    requires Savable(s, before, next)
    ensures SaveDraw(s, before, next) == Ok(s.(draws := s.draws[before.id := next]))
  {
    hide RowChecks, LocksKept;
  }

  lemma SubmitGoes(cfg: Config, s: State, env: Env, subject: string, id: string, key: string, next: DrawRequest,
                   keys: set<string>, letter: char, after: char)
    requires Recorded(cfg, s.chain, keys, letter) && GoodHash(cfg.sha) && EventIdFrom(env, letter) && letter < after
    requires subject != "" && key != "" && key !in keys && id in s.draws && id !in s.manifests && s.draws[id].requestedBy == subject
    requires var d, documents := s.draws[id], CurrentDocuments(s.documents, id);
             d.status.Draft? && d.submittedAt.None? && documents != [] && d.dealId in env.deals && env.deals[d.dealId].policyVersion in cfg.packs
             && next == d.(status := Submitted, submittedAt := Some(env.now), lockedPolicyVersion := Some(env.deals[d.dealId].policyVersion),
                           lockedManifestHash := Some(ManifestHash(cfg, documents)))
             && d.id == id && Savable(s, d, next)
    ensures Submit(cfg, s, env, subject, id, key).Ok?
    ensures var t, documents := Submit(cfg, s, env, subject, id, key).value, CurrentDocuments(s.documents, id);
            t == s.(chain := t.chain, draws := s.draws[id := next], manifests := s.manifests[id := Manifest(Ids(documents), ManifestHash(cfg, documents))])
            && Recorded(cfg, t.chain, keys + {key}, after)
  {
    Unused(cfg, s.chain, keys, letter, key);
    hide Recorded, GoodHash, Valid, SubmittedPayload, TransitionDraw, SaveDraw, KeyUsed, CurrentDocuments, ManifestHash, Ids, RowChecks, LocksKept;
    var d, documents := s.draws[id], CurrentDocuments(s.documents, id);
    var hash, version := ManifestHash(cfg, documents), env.deals[d.dealId].policyVersion;
    var locked := d.(lockedPolicyVersion := Some(version), lockedManifestHash := Some(hash));
    var payload := SubmittedPayload(hash, version, documents);
    SubmittedPayloadValid(hash, version, documents);
    Moved(cfg, s, env, (0, 1), locked, Submitted, subject, "Requester", None, key, payload, keys, letter, after);
    var (s1, moved) := TransitionDraw(cfg, s, env, (0, 1), locked, Submitted, subject, "Requester", None, key, payload).value;
    Saves(s1.(manifests := s1.manifests[id := Manifest(Ids(documents), hash)]), d, moved);
  }

  lemma EvaluateGoes(cfg: Config, s: State, env: Env, subject: string, id: string, key: string, next: DrawRequest,
                     keys: set<string>, letter: char, after: char)
    requires Recorded(cfg, s.chain, keys, letter) && GoodHash(cfg.sha) && EventIdFrom(env, letter) && letter < after
    requires subject != "" && key != "" && key !in keys && id in s.draws && env.id(0, 0) !in s.evaluations
    requires var d := s.draws[id];
             d.status.Submitted? && PackOf(cfg, d.lockedPolicyVersion).Ok? && d.id == id
             && RequireRole(env, subject, ["OperationsOwner", "RiskOwner", "Underwriter", "LenderAdmin"], [d.dealId]).Ok?
             && next == d.(status := UnderReview, policyEvaluationId := Some(env.id(0, 0))) && Savable(s, d, next)
    ensures Evaluate(cfg, s, env, subject, id, key).Ok?
    ensures var t, d := Evaluate(cfg, s, env, subject, id, key).value, s.draws[id];
            t == s.(chain := t.chain, draws := s.draws[id := next],
                    evaluations := s.evaluations[env.id(0, 0) := Evaluation(id, d.lockedPolicyVersion.value, d.lockedManifestHash,
                                                                          ManifestComplete(s, id, PackOf(cfg, d.lockedPolicyVersion).value))])
            && Recorded(cfg, t.chain, keys + {key}, after)
  {
    Unused(cfg, s.chain, keys, letter, key);
    hide Recorded, GoodHash, Valid, EvaluatedPayload, TransitionDraw, SaveDraw, KeyUsed, ManifestComplete, RowChecks, LocksKept, RequireRole;
    var d, eid := s.draws[id], env.id(0, 0);
    var role := RequireRole(env, subject, ["OperationsOwner", "RiskOwner", "Underwriter", "LenderAdmin"], [d.dealId]).value;
    var pack := PackOf(cfg, d.lockedPolicyVersion).value;
    var payload := EvaluatedPayload(s, id, eid, pack);
    EvaluatedPayloadValid(s, id, eid, pack);
    Moved(cfg, s, env, (0, 1), d, UnderReview, subject, role, None, key, payload, keys, letter, after);
    var (s1, moved) := TransitionDraw(cfg, s, env, (0, 1), d, UnderReview, subject, role, None, key, payload).value;
    var evaluation := Evaluation(id, d.lockedPolicyVersion.value, d.lockedManifestHash, ManifestComplete(s, id, pack));
    Saves(s1.(evaluations := s1.evaluations[eid := evaluation]), d, moved.(policyEvaluationId := Some(eid)));
  }

  /** The draw as an approval of `amount` leaves it. */
  function ApprovedAs(cfg: Config, d: DrawRequest, amount: nat): DrawRequest {
    d.(status := Approved, amountApproved := Some(amount), approvalBindingHash := Some(BindingHash(cfg, d, amount)))
  }

  function DecisionOf(cfg: Config, d: DrawRequest, subject: string, role: string, amount: nat, key: string): Decision {
    Decision(d.id, subject, role, d.lockedPolicyVersion, d.lockedManifestHash, BindingHash(cfg, d, amount), key)
  }

  /** No approval rule blocks this approval, the last one the draw needs. */
  ghost predicate Clears(cfg: Config, s: State, env: Env, subject: string, d: DrawRequest, amount: nat, controls: Controls) {
    PackOf(cfg, d.lockedPolicyVersion).Ok? && ParseMinor(controls.remainingBudget).Some? && ParseMinor(controls.eligibleThisDraw).Some?
    && forall f: Failure :: !Blocks(f, Some(amount), d.amountRequested,
         ContextOf(s, env, subject, d, PackOf(cfg, d.lockedPolicyVersion).value, BindingHash(cfg, d, amount),
                   ParseMinor(controls.remainingBudget).value, ParseMinor(controls.eligibleThisDraw).value, controls))
  }

  function ClearingContext(cfg: Config, s: State, env: Env, subject: string, d: DrawRequest, amount: nat, controls: Controls): ApprovalContext
    requires Clears(cfg, s, env, subject, d, amount, controls)
  {
    ContextOf(s, env, subject, d, PackOf(cfg, d.lockedPolicyVersion).value, BindingHash(cfg, d, amount),
              ParseMinor(controls.remainingBudget).value, ParseMinor(controls.eligibleThisDraw).value, controls)
  }

  lemma ApprovalMoves(cfg: Config, s: State, env: Env, subject: string, role: string, d: DrawRequest, amount: nat, input: ApproveInput,
                      keys: set<string>, letter: char, after: char)
    requires Recorded(cfg, s.chain, keys, letter) && GoodHash(cfg.sha) && EventIdFrom(env, letter) && letter < after
    requires d.status.UnderReview? && Clears(cfg, s, env, subject, d, amount, input.controls)
    ensures var ctx, hash := ClearingContext(cfg, s, env, subject, d, amount, input.controls), BindingHash(cfg, d, amount);
            var candidate := d.(amountApproved := Some(amount), approvalBindingHash := Some(hash));
            var r := TransitionDraw(cfg, s, env, (0, 1), candidate, Approved, subject, role, Some(ctx), input.idempotencyKey,
                                    DecisionPayload(hash, amount, input.controls));
            r.Ok? && r.value.0 == s.(chain := r.value.0.chain) && Recorded(cfg, r.value.0.chain, keys + {input.idempotencyKey}, after)
            && r.value.1 == ApprovedAs(cfg, d, amount)
  {
    hide Recorded, GoodHash, Valid, DecisionPayload, TransitionDraw, Blocks, ContextOf, BindingHash, ParseMinor;
    var ctx, hash := ClearingContext(cfg, s, env, subject, d, amount, input.controls), BindingHash(cfg, d, amount);
    var candidate := d.(amountApproved := Some(amount), approvalBindingHash := Some(hash));
    DecisionPayloadValid(hash, amount, input.controls);
    Moved(cfg, s, env, (0, 1), candidate, Approved, subject, role, Some(ctx), input.idempotencyKey,
          DecisionPayload(hash, amount, input.controls), keys, letter, after);
  }

  /** An approval that nothing blocks: move, insert the decision, save. */
  function ClearedApproval(cfg: Config, s: State, env: Env, subject: string, role: string, d: DrawRequest, amount: nat, input: ApproveInput): Result<State>
    requires Clears(cfg, s, env, subject, d, amount, input.controls)
  {
    var hash := BindingHash(cfg, d, amount);
    var candidate := d.(amountApproved := Some(amount), approvalBindingHash := Some(hash));
    var (s1, next) :- TransitionDraw(cfg, s, env, (0, 1), candidate, Approved, subject, role,
                                     Some(ClearingContext(cfg, s, env, subject, d, amount, input.controls)), input.idempotencyKey,
                                     DecisionPayload(hash, amount, input.controls));
    var s2 :- InsertDecision(s1, env, d, DecisionOf(cfg, d, subject, role, amount, input.idempotencyKey));
    SaveDraw(s2, d, next)
  }

  lemma ApproveClears(cfg: Config, s: State, env: Env, subject: string, input: ApproveInput, amount: nat)
    requires subject != "" && input.idempotencyKey != "" && !KeyUsed(s.chain.rows, input.idempotencyKey)
    requires ParseMinor(input.amountApproved) == Some(amount)
    requires input.drawId in s.draws && s.draws[input.drawId].status.UnderReview?
    requires Clears(cfg, s, env, subject, s.draws[input.drawId], amount, input.controls)
    requires var d := s.draws[input.drawId];
             RequireRole(env, subject, PackOf(cfg, d.lockedPolicyVersion).value.approverRoles, [d.dealId, d.spvId]).Ok?
    ensures var d := s.draws[input.drawId];
            var role := RequireRole(env, subject, PackOf(cfg, d.lockedPolicyVersion).value.approverRoles, [d.dealId, d.spvId]).value;
            Approve(cfg, s, env, subject, input) == ClearedApproval(cfg, s, env, subject, role, d, amount, input)
  {
    hide DecisionPayload, TransitionDraw, SaveDraw, InsertDecision, KeyUsed, RequireRole, Blocks, ContextOf, BindingHash, ParseMinor;
  }

  lemma ApproveGoes(cfg: Config, s: State, env: Env, subject: string, input: ApproveInput, amount: nat,
                    keys: set<string>, letter: char, after: char)
    requires Recorded(cfg, s.chain, keys, letter) && GoodHash(cfg.sha) && EventIdFrom(env, letter) && letter < after
    requires subject != "" && input.idempotencyKey != "" && input.idempotencyKey !in keys && ParseMinor(input.amountApproved) == Some(amount)
    requires input.drawId in s.draws && s.draws[input.drawId].status.UnderReview? && s.draws[input.drawId].id == input.drawId
    requires Clears(cfg, s, env, subject, s.draws[input.drawId], amount, input.controls)
    requires var d := s.draws[input.drawId];
             var role := RequireRole(env, subject, PackOf(cfg, d.lockedPolicyVersion).value.approverRoles, [d.dealId, d.spvId]);
             role.Ok? && DecisionAllowed(s, env, d, DecisionOf(cfg, d, subject, role.value, amount, input.idempotencyKey))
             && Savable(s, d, ApprovedAs(cfg, d, amount))
    ensures Approve(cfg, s, env, subject, input).Ok?
    ensures var t, d := Approve(cfg, s, env, subject, input).value, s.draws[input.drawId];
            var role := RequireRole(env, subject, PackOf(cfg, d.lockedPolicyVersion).value.approverRoles, [d.dealId, d.spvId]).value;
            t == s.(chain := t.chain, draws := s.draws[d.id := ApprovedAs(cfg, d, amount)],
                    decisions := s.decisions + [DecisionOf(cfg, d, subject, role, amount, input.idempotencyKey)])
            && Recorded(cfg, t.chain, keys + {input.idempotencyKey}, after)
  {
    Unused(cfg, s.chain, keys, letter, input.idempotencyKey);
    hide Recorded, GoodHash, Clears, Approve, DecisionPayload, TransitionDraw, SaveDraw, KeyUsed, RowChecks, LocksKept, RequireRole,
         ClearingContext, BindingHash, DecisionAllowed, ParseMinor, PackOf;
    ApproveClears(cfg, s, env, subject, input, amount);
    var d := s.draws[input.drawId];
    var role := RequireRole(env, subject, PackOf(cfg, d.lockedPolicyVersion).value.approverRoles, [d.dealId, d.spvId]).value;
    var candidate := d.(amountApproved := Some(amount), approvalBindingHash := Some(BindingHash(cfg, d, amount)));
    ApprovalMoves(cfg, s, env, subject, role, d, amount, input, keys, letter, after);
    var s1 := TransitionDraw(cfg, s, env, (0, 1), candidate, Approved, subject, role,
                             Some(ClearingContext(cfg, s, env, subject, d, amount, input.controls)), input.idempotencyKey,
                             DecisionPayload(BindingHash(cfg, d, amount), amount, input.controls)).value.0;
    var decision := DecisionOf(cfg, d, subject, role, amount, input.idempotencyKey);
    SameDecisions(s, s1, env, d, decision);
    Saves(s1.(decisions := s1.decisions + [decision]), d, ApprovedAs(cfg, d, amount));
  }

  lemma SameDecisions(s: State, t: State, env: Env, d: DrawRequest, decision: Decision)
    requires s.decisions == t.decisions
    ensures DecisionAllowed(s, env, d, decision) <==> DecisionAllowed(t, env, d, decision)
  {
  }

  /** The instruction of an approved draw. */
  function PaymentOf(env: Env, d: DrawRequest, subject: string, amount: int, key: string): Instruction {
    Instruction(env.id(0, 0), d.id, subject, amount, d.currency, d.payeeBankAccountId, d.lockedPolicyVersion, d.lockedManifestHash,
                d.approvalBindingHash, Sent, env.now, key)
  }

  lemma InstructGoes(cfg: Config, s: State, env: Env, subject: string, input: InstructInput, keys: set<string>, letter: char, after: char)
    requires Recorded(cfg, s.chain, keys, letter) && GoodHash(cfg.sha) && EventIdFrom(env, letter) && letter < after
    requires subject != "" && input.idempotencyKey != "" && input.idempotencyKey !in keys && input.drawId in s.draws
    requires var d := s.draws[input.drawId];
             d.status.Approved? && d.id == input.drawId && d.amountApproved.Some?
             && RequireRole(env, subject, ["TreasuryOwner"], [d.dealId, d.spvId]).Ok?
             && InstructionAllowed(s, env, d, input.externalPartnerId, input.settlementReference,
                                   PaymentOf(env, d, subject, d.amountApproved.value, input.idempotencyKey))
             && Savable(s, d, d.(status := SettlementInstructed))
    ensures Instruct(cfg, s, env, subject, input).Ok?
    ensures var t, d := Instruct(cfg, s, env, subject, input).value, s.draws[input.drawId];
            t == s.(chain := t.chain, draws := s.draws[d.id := d.(status := SettlementInstructed)],
                    instructions := s.instructions[(input.externalPartnerId, input.settlementReference)
                                                   := PaymentOf(env, d, subject, d.amountApproved.value, input.idempotencyKey)])
            && Recorded(cfg, t.chain, keys + {input.idempotencyKey}, after)
  {
    Unused(cfg, s.chain, keys, letter, input.idempotencyKey);
    hide Recorded, GoodHash, Valid, InstructedPayload, TransitionDraw, SaveDraw, KeyUsed, RowChecks, LocksKept, RequireRole, InstructionAllowed,
         Instruct;
    var d := s.draws[input.drawId];
    var role := RequireRole(env, subject, ["TreasuryOwner"], [d.dealId, d.spvId]).value;
    InstructedPayloadValid(d, input);
    Moved(cfg, s, env, (0, 1), d, SettlementInstructed, subject, role, None, input.idempotencyKey, InstructedPayload(d, input), keys, letter, after);
    var s1 := Instructing(cfg, s, env, subject, role, input).value.0;
    var payment := PaymentOf(env, d, subject, d.amountApproved.value, input.idempotencyKey);
    SameInstructions(s, s1, env, d, input.externalPartnerId, input.settlementReference, payment);
    var s2 := s1.(instructions := s1.instructions[(input.externalPartnerId, input.settlementReference) := payment]);
    Saves(s2, d, d.(status := SettlementInstructed));
    AllowedMeansApart(s, env, d, input.externalPartnerId, input.settlementReference, payment);
    InstructsStepwise(cfg, s, env, subject, input, s1, s2.(draws := s2.draws[d.id := d.(status := SettlementInstructed)]));
  }

  lemma AllowedMeansApart(s: State, env: Env, d: DrawRequest, partner: string, reference: string, i: Instruction)
    requires InstructionAllowed(s, env, d, partner, reference, i)
    ensures i.instructedBy != d.requestedBy && !Decided(s.decisions, d.id, i.instructedBy)
  {
    hide PayeeVerified, OpenHoldOn, Decided;
  }

  function Instructing(cfg: Config, s: State, env: Env, subject: string, role: string, input: InstructInput): Result<(State, DrawRequest)>
    requires input.drawId in s.draws
  {
    TransitionDraw(cfg, s, env, (0, 1), s.draws[input.drawId], SettlementInstructed, subject, role, None, input.idempotencyKey,
                   InstructedPayload(s.draws[input.drawId], input))
  }

  /** The steps of an instruction, one after the other. */
  lemma InstructsStepwise(cfg: Config, s: State, env: Env, subject: string, input: InstructInput, s1: State, t: State)
    requires subject != "" && input.idempotencyKey != "" && input.drawId in s.draws && !KeyUsed(s.chain.rows, input.idempotencyKey)
    requires var d := s.draws[input.drawId];
             var role := RequireRole(env, subject, ["TreasuryOwner"], [d.dealId, d.spvId]);
             role.Ok? && subject != d.requestedBy && !Decided(s.decisions, d.id, subject) && d.amountApproved.Some?
             && Instructing(cfg, s, env, subject, role.value, input) == Ok((s1, d.(status := SettlementInstructed)))
             && var payment := PaymentOf(env, d, subject, d.amountApproved.value, input.idempotencyKey);
                InstructionAllowed(s1, env, d, input.externalPartnerId, input.settlementReference, payment)
                && SaveDraw(s1.(instructions := s1.instructions[(input.externalPartnerId, input.settlementReference) := payment]),
                            d, d.(status := SettlementInstructed)) == Ok(t)
    ensures Instruct(cfg, s, env, subject, input) == Ok(t)
  {
    hide TransitionDraw, SaveDraw, KeyUsed, RequireRole, Decided, InstructionAllowed, InstructedPayload;
  }

  lemma SameInstructions(s: State, t: State, env: Env, d: DrawRequest, partner: string, reference: string, i: Instruction)
    requires s.decisions == t.decisions && s.instructions == t.instructions
    ensures InstructionAllowed(s, env, d, partner, reference, i) <==> InstructionAllowed(t, env, d, partner, reference, i)
  {
    hide PayeeVerified, OpenHoldOn;
  }

  // ---------------------------------------------------------------------------
  // Settling a row
  // ---------------------------------------------------------------------------

  function ReconciledAs(d: DrawRequest): DrawRequest { d.(status := Reconciled, reconciliationStatus := MatchedStatus) }

  /** The row reports exactly what the instruction asked for. */
  ghost predicate Confirms(env: Env, row: CsvRow, i: Instruction) {
    MinorText(row.amountMinor) && i.payeeBankAccountId in env.accounts
    && Mismatches(row, i, env.accounts[i.payeeBankAccountId].accountRef) == []
  }

  /** The database takes the row's confirmation. */
  predicate Confirmable(s: State, c: Confirmation) {
    c.amount > 0 && CalendarDate(c.settlementDate) && c.enteredBy != c.secondEntryBy && !ConfirmationExists(s.confirmations, c.id)
  }

  function ConfirmationOf(cfg: Config, env: Env, ic: ImportContext, row: CsvRow, i: Instruction): Confirmation {
    NewConfirmation(cfg, env, ic, row, Some(i.id))
  }

  function MatchOf(cfg: Config, env: Env, ic: ImportContext, row: CsvRow, i: Instruction): ReconciliationRecord {
    ReconciliationRecord(Some(i.drawId), Some(i.id), Some(ConfirmationOf(cfg, env, ic, row, i).id), [], ic.entrant)
  }

  /** The tables after a row that settles its instruction. */
  function SettledTables(cfg: Config, s: State, env: Env, ic: ImportContext, row: CsvRow, i: Instruction): State
    requires i.drawId in s.draws
  {
    s.(draws := s.draws[i.drawId := ReconciledAs(s.draws[i.drawId])],
       instructions := s.instructions[(row.externalPartnerId, row.settlementReference) := i.(status := ConfirmedByPartner)],
       confirmations := s.confirmations + [ConfirmationOf(cfg, env, ic, row, i)],
       records := s.records + [MatchOf(cfg, env, ic, row, i)])
  }

  function Confirming(cfg: Config, s: State, env: Env, ic: ImportContext, row: CsvRow, i: Instruction): Result<(State, DrawRequest)>
    requires i.drawId in s.draws
  {
    TransitionDraw(cfg, s, env, (ic.index, 1), s.draws[i.drawId], SettlementConfirmed, ic.entrant, ic.role, None,
                   RowKey(ic.batchKey, ic.index + 1, "confirmed"), ConfirmedPayload(ConfirmationOf(cfg, env, ic, row, i).id, row))
  }

  /** The tables once the settlement is confirmed. */
  function ConfirmedTables(cfg: Config, s: State, env: Env, ic: ImportContext, row: CsvRow, i: Instruction): State
    requires i.drawId in s.draws
  {
    s.(draws := s.draws[i.drawId := s.draws[i.drawId].(status := SettlementConfirmed)],
       instructions := s.instructions[(row.externalPartnerId, row.settlementReference) := i.(status := ConfirmedByPartner)],
       confirmations := s.confirmations + [ConfirmationOf(cfg, env, ic, row, i)])
  }

  lemma Inserts(s: State, c: Confirmation)
    requires Confirmable(s, c)
    ensures InsertConfirmation(s, c) == Ok(s.(confirmations := s.confirmations + [c]))
  {
    hide CalendarDate, ConfirmationExists;
  }

  function Reconciling(cfg: Config, u: State, env: Env, ic: ImportContext, row: CsvRow, i: Instruction, confirmed: DrawRequest): Result<(State, DrawRequest)> {
    TransitionDraw(cfg, u, env, (ic.index, 2), confirmed, Reconciled, ic.entrant, ic.role, None,
                   RowKey(ic.batchKey, ic.index + 1, "reconciled"), ReconciledPayload(ConfirmationOf(cfg, env, ic, row, i).id, i.id))
  }

  /** The steps of a row that settles, one after the other. */
  lemma SettlesStepwise(cfg: Config, s: State, env: Env, ic: ImportContext, row: CsvRow, i: Instruction, s1: State, s2: State, s4: State, s5: State,
                        s6: State, confirmed: DrawRequest, next: DrawRequest)
    requires i.drawId in s.draws && s.draws[i.drawId].id == i.drawId && Confirms(env, row, i)
    requires Confirming(cfg, s, env, ic, row, i) == Ok((s1, confirmed))
    requires InsertConfirmation(s1, ConfirmationOf(cfg, env, ic, row, i)) == Ok(s2)
    requires SaveDraw(s2.(instructions := s2.instructions[(row.externalPartnerId, row.settlementReference) := i.(status := ConfirmedByPartner)]),
                      s.draws[i.drawId], confirmed) == Ok(s4)
    requires Reconciling(cfg, s4, env, ic, row, i, confirmed) == Ok((s5, next)) && MatchGuard(s5, env, MatchOf(cfg, env, ic, row, i))
    requires SaveDraw(s5.(records := s5.records + [MatchOf(cfg, env, ic, row, i)]), confirmed, next.(reconciliationStatus := MatchedStatus)) == Ok(s6)
    ensures SettleRow(cfg, s, env, ic, row, i) == Ok((s6, RowResult(ic.index + 2, row.externalPartnerId, row.settlementReference, Some(i.drawId), [])))
  {
    hide TransitionDraw, InsertConfirmation, SaveDraw, MatchGuard, RowKey, ConfirmedPayload, ReconciledPayload, ExceptionPayload, Mismatches,
         MinorText, NewConfirmation;
  }

  lemma ReconcilingGoes(cfg: Config, s: State, env: Env, ic: ImportContext, row: CsvRow, u: State, keys: set<string>, letter: char, after: char)
    requires Recorded(cfg, u.chain, keys, letter) && GoodHash(cfg.sha) && letter < after
    requires env.id(ic.index, 2) != "" && env.id(ic.index, 2)[0] == letter
    requires var k := (row.externalPartnerId, row.settlementReference);
             k in s.instructions && Confirms(env, row, s.instructions[k]) && s.instructions[k].drawId in s.draws
             && u == ConfirmedTables(cfg, s, env, ic, row, s.instructions[k]).(chain := u.chain)
             && s.draws[s.instructions[k].drawId].id == s.instructions[k].drawId && RowChecks(ReconciledAs(s.draws[s.instructions[k].drawId]))
    ensures var i := s.instructions[(row.externalPartnerId, row.settlementReference)];
            var r, record := Reconciling(cfg, u, env, ic, row, i, u.draws[i.drawId]), MatchOf(cfg, env, ic, row, i);
            r.Ok? && MatchGuard(r.value.0, env, record) && r.value.1.(reconciliationStatus := MatchedStatus) == ReconciledAs(s.draws[i.drawId])
            && SaveDraw(r.value.0.(records := r.value.0.records + [record]), u.draws[i.drawId], ReconciledAs(s.draws[i.drawId]))
               == Ok(SettledTables(cfg, s, env, ic, row, i).(chain := r.value.0.chain))
  {
    hide Recorded, GoodHash, Valid, TransitionDraw, SaveDraw, RowChecks, LocksKept, MatchGuard, RowKey, ReconciledPayload, Mismatches,
         MinorText, NewConfirmation;
    var i := s.instructions[(row.externalPartnerId, row.settlementReference)];
    var confirmed, key, payload := u.draws[i.drawId], RowKey(ic.batchKey, ic.index + 1, "reconciled"),
                                   ReconciledPayload(ConfirmationOf(cfg, env, ic, row, i).id, i.id);
    ReconciledPayloadValid(ConfirmationOf(cfg, env, ic, row, i).id, i.id);
    Moved(cfg, u, env, (ic.index, 2), confirmed, Reconciled, ic.entrant, ic.role, None, key, payload, keys, letter, after);
    var s5 := TransitionDraw(cfg, u, env, (ic.index, 2), confirmed, Reconciled, ic.entrant, ic.role, None, key, payload).value.0;
    MatchPassesGuard(cfg, s, env, ic, row, s5);
    LocksStay(confirmed, ReconciledAs(confirmed));
    Saves(s5.(records := s5.records + [MatchOf(cfg, env, ic, row, i)]), confirmed, ReconciledAs(confirmed));
    assert u.draws[i.drawId := ReconciledAs(confirmed)] == s.draws[i.drawId := ReconciledAs(s.draws[i.drawId])];
  }

  /** What a row needs to settle its instruction and reconcile the draw. */
  ghost predicate Settleable(cfg: Config, s: State, env: Env, ic: ImportContext, row: CsvRow) {
    var k := (row.externalPartnerId, row.settlementReference);
    k in s.instructions && s.instructions[k].drawId in s.draws && Confirms(env, row, s.instructions[k])
    && Confirmable(s, ConfirmationOf(cfg, env, ic, row, s.instructions[k]))
    && var d := s.draws[s.instructions[k].drawId];
       d.id == s.instructions[k].drawId && d.status.SettlementInstructed? && RowChecks(d.(status := SettlementConfirmed)) && RowChecks(ReconciledAs(d))
  }

  lemma ConfirmingGoes(cfg: Config, s: State, env: Env, ic: ImportContext, row: CsvRow, keys: set<string>, letter: char, middle: char)
    requires Recorded(cfg, s.chain, keys, letter) && GoodHash(cfg.sha) && letter < middle && Settleable(cfg, s, env, ic, row)
    requires env.id(ic.index, 1) != "" && env.id(ic.index, 1)[0] == letter
    ensures var k := (row.externalPartnerId, row.settlementReference);
            var i := s.instructions[k];
            var d, c, r := s.draws[i.drawId], ConfirmationOf(cfg, env, ic, row, i), Confirming(cfg, s, env, ic, row, i);
            r.Ok? && r.value.1 == d.(status := SettlementConfirmed)
            && InsertConfirmation(r.value.0, c) == Ok(r.value.0.(confirmations := s.confirmations + [c]))
            && SaveDraw(r.value.0.(confirmations := s.confirmations + [c], instructions := s.instructions[k := i.(status := ConfirmedByPartner)]), d, r.value.1)
               == Ok(ConfirmedTables(cfg, s, env, ic, row, i).(chain := r.value.0.chain))
            && r.value.0.instructions == s.instructions
            && Recorded(cfg, r.value.0.chain, keys + {RowKey(ic.batchKey, ic.index + 1, "confirmed")}, middle)
  {
    hide Recorded, GoodHash, Valid, TransitionDraw, SaveDraw, RowChecks, LocksKept, RowKey, ConfirmedPayload, Confirms, Confirmable,
         NewConfirmation, InsertConfirmation;
    var k := (row.externalPartnerId, row.settlementReference);
    var i := s.instructions[k];
    var d, c, key := s.draws[i.drawId], ConfirmationOf(cfg, env, ic, row, i), RowKey(ic.batchKey, ic.index + 1, "confirmed");
    ConfirmedPayloadValid(c.id, row);
    Moved(cfg, s, env, (ic.index, 1), d, SettlementConfirmed, ic.entrant, ic.role, None, key, ConfirmedPayload(c.id, row), keys, letter, middle);
    var s1 := Confirming(cfg, s, env, ic, row, i).value.0;
    SameConfirmable(s, s1, c);
    Inserts(s1, c);
    LocksStay(d, d.(status := SettlementConfirmed));
    Saves(s1.(confirmations := s.confirmations + [c], instructions := s.instructions[k := i.(status := ConfirmedByPartner)]),
          d, d.(status := SettlementConfirmed));
  }

  lemma SameConfirmable(s: State, t: State, c: Confirmation)
    requires s.confirmations == t.confirmations
    ensures Confirmable(s, c) <==> Confirmable(t, c)
  {
  }

  lemma SettleGoes(cfg: Config, s: State, env: Env, ic: ImportContext, row: CsvRow, keys: set<string>, letter: char, middle: char, after: char)
    requires Recorded(cfg, s.chain, keys, letter) && GoodHash(cfg.sha) && letter < middle < after && Settleable(cfg, s, env, ic, row)
    requires env.id(ic.index, 1) != "" && env.id(ic.index, 1)[0] == letter && env.id(ic.index, 2) != "" && env.id(ic.index, 2)[0] == middle
    ensures var i := s.instructions[(row.externalPartnerId, row.settlementReference)];
            var r := SettleRow(cfg, s, env, ic, row, i);
            r.Ok? && r.value.0 == SettledTables(cfg, s, env, ic, row, i).(chain := r.value.0.chain) && r.value.1.codes == []
  {
    hide Recorded, GoodHash, SaveDraw, RowChecks, RowKey, Confirms, Confirmable, NewConfirmation, SettleRow, InsertConfirmation, Confirming,
         Reconciling, MatchGuard, ConfirmedTables, SettledTables, MatchOf;
    var k := (row.externalPartnerId, row.settlementReference);
    var i := s.instructions[k];
    var d, c := s.draws[i.drawId], ConfirmationOf(cfg, env, ic, row, i);
    ConfirmingGoes(cfg, s, env, ic, row, keys, letter, middle);
    var s1 := Confirming(cfg, s, env, ic, row, i).value.0;
    var u := ConfirmedTables(cfg, s, env, ic, row, i).(chain := s1.chain);
    ConfirmedDraw(cfg, s, env, ic, row, i);
    ReconcilingGoes(cfg, s, env, ic, row, u, keys + {RowKey(ic.batchKey, ic.index + 1, "confirmed")}, middle, after);
    var (s5, next) := Reconciling(cfg, u, env, ic, row, i, u.draws[i.drawId]).value;
    SettlesStepwise(cfg, s, env, ic, row, i, s1, s1.(confirmations := s.confirmations + [c]), u, s5,
                    SettledTables(cfg, s, env, ic, row, i).(chain := s5.chain), d.(status := SettlementConfirmed), next);
  }

  lemma ConfirmedDraw(cfg: Config, s: State, env: Env, ic: ImportContext, row: CsvRow, i: Instruction)
    requires i.drawId in s.draws
    ensures var u := ConfirmedTables(cfg, s, env, ic, row, i);
            i.drawId in u.draws && u.draws[i.drawId] == s.draws[i.drawId].(status := SettlementConfirmed)
  {
    hide NewConfirmation;
  }

  lemma LocksStay(before: DrawRequest, after: DrawRequest)
    requires after.lockedPolicyVersion == before.lockedPolicyVersion && after.lockedManifestHash == before.lockedManifestHash
    requires after.requestedBy == before.requestedBy
    ensures LocksKept(before, after)
  {
  }

  // ---------------------------------------------------------------------------
  // Importing a batch of one row
  // ---------------------------------------------------------------------------

  lemma RowGoes(cfg: Config, s: State, env: Env, ic: ImportContext, row: CsvRow, keys: set<string>, letter: char, middle: char, after: char)
    requires Recorded(cfg, s.chain, keys, letter) && GoodHash(cfg.sha) && letter < middle < after && Settleable(cfg, s, env, ic, row)
    requires env.id(ic.index, 1) != "" && env.id(ic.index, 1)[0] == letter && env.id(ic.index, 2) != "" && env.id(ic.index, 2)[0] == middle
    requires ic.index == 0 && !ReferenceConfirmed(s.confirmations, row.externalPartnerId, row.settlementReference)
    ensures var r := ImportRows(cfg, s, env, ic, [row]);
            r.Ok? && r.value.0 == SettledTables(cfg, s, env, ic, row, s.instructions[(row.externalPartnerId, row.settlementReference)])
                                    .(chain := r.value.0.chain)
  {
    hide Recorded, GoodHash, SettleRow, RecordException, SettledTables, ReferenceConfirmed, Confirms, Confirmable, RowChecks;
    SettleGoes(cfg, s, env, ic, row, keys, letter, middle, after);
    assert [row][..0] == [];
    assert ImportRows(cfg, s, env, ic, []) == Ok((s, []));
    assert ic.(index := 0) == ic;
  }

  lemma SettleableDraw(cfg: Config, s: State, env: Env, ic: ImportContext, row: CsvRow)
    requires Settleable(cfg, s, env, ic, row)
    ensures var k := (row.externalPartnerId, row.settlementReference); k in s.instructions && s.instructions[k].drawId in s.draws
  {
  }

  lemma SameSettleable(cfg: Config, s: State, chain: Chain, env: Env, ic: ImportContext, row: CsvRow)
    requires Settleable(cfg, s, env, ic, row)
    ensures Settleable(cfg, s.(chain := chain), env, ic, row)
  {
    hide Confirms, RowChecks, NewConfirmation, CalendarDate, ConfirmationExists;
  }

  function ImportEvent(cfg: Config, ic: ImportContext, rows: seq<CsvRow>): AppendInput {
    PlainEvent(cfg, ic.entrant, ic.role, "CSV_BATCH_IMPORTED", "SETTLEMENT_CONFIRMATION", ic.batchKey, ic.batchKey,
               ImportedPayload(rows, ic.confirmer))
  }

  lemma ImportLoggable(cfg: Config, ic: ImportContext, rows: seq<CsvRow>)
    ensures Loggable(cfg, ImportEvent(cfg, ic, rows)) && ImportEvent(cfg, ic, rows).idempotencyKey == ic.batchKey
  {
    ImportedPayloadValid(rows, ic.confirmer);
    hide Valid, ImportedPayload;
  }

  /** Two equal entries by two people under an unused key: the import is logged, then its rows are imported. */
  lemma ImportStarts(cfg: Config, s: State, env: Env, ic: ImportContext, csv: string, rows: seq<CsvRow>, s1: State)
    requires ic.entrant != ic.confirmer && ic.entrant != "" && ic.batchKey != "" && !KeyUsed(s.chain.rows, ic.batchKey) && ic.index == 0
    requires ParseConfirmationCsv(csv) == Some(rows) && Log(cfg, s, env, (|rows|, 1), ImportEvent(cfg, ic, rows)) == Ok(s1)
    requires RequireRole(env, ic.entrant, CSV_ENTRY_ROLES, []) == Ok(ic.role) && RequireRole(env, ic.confirmer, CSV_ENTRY_ROLES, []).Ok?
    ensures ImportCsv(cfg, s, env, ic.entrant, ic.confirmer, ic.batchKey, csv, csv) == ImportRows(cfg, s1, env, ic, rows)
  {
    hide KeyUsed, RequireRole, Log, ImportRows, ImportedPayload, ParseConfirmationCsv, AuditText, RowsJson;
  }

  /** One row, entered twice by two people, about an instruction it agrees with: the draw is reconciled. */
  lemma ImportGoes(cfg: Config, s: State, env: Env, ic: ImportContext, row: CsvRow, keys: set<string>,
                   first: char, letter: char, middle: char, after: char)
    requires Recorded(cfg, s.chain, keys, first) && GoodHash(cfg.sha) && first < letter < middle < after && ic.index == 0
    requires env.id(1, 1) != "" && env.id(1, 1)[0] == first
    requires env.id(0, 1) != "" && env.id(0, 1)[0] == letter && env.id(0, 2) != "" && env.id(0, 2)[0] == middle
    requires ic.entrant != ic.confirmer && ic.entrant != "" && ic.batchKey != "" && ic.batchKey !in keys && Writable([row])
    requires RequireRole(env, ic.entrant, CSV_ENTRY_ROLES, []) == Ok(ic.role) && RequireRole(env, ic.confirmer, CSV_ENTRY_ROLES, []).Ok?
    requires Settleable(cfg, s, env, ic, row) && !ReferenceConfirmed(s.confirmations, row.externalPartnerId, row.settlementReference)
    ensures var r := ImportCsv(cfg, s, env, ic.entrant, ic.confirmer, ic.batchKey, CsvText([row]), CsvText([row]));
            r.Ok? && r.value.0 == SettledTables(cfg, s, env, ic, row, s.instructions[(row.externalPartnerId, row.settlementReference)])
                                    .(chain := r.value.0.chain)
  {
    Unused(cfg, s.chain, keys, first, ic.batchKey);
    WrittenReads([row]);
    ImportLoggable(cfg, ic, [row]);
    hide Recorded, GoodHash, KeyUsed, RequireRole, Loggable, ImportEvent, Log, ImportCsv, ImportRows, ParseConfirmationCsv, CsvText, Writable,
         Settleable, ReferenceConfirmed, SettledTables;
    Logged(cfg, s, env, (1, 1), ImportEvent(cfg, ic, [row]), keys, first, letter);
    var s1 := Log(cfg, s, env, (1, 1), ImportEvent(cfg, ic, [row])).value;
    ImportStarts(cfg, s, env, ic, CsvText([row]), [row], s1);
    SameSettleable(cfg, s, s1.chain, env, ic, row);
    RowGoes(cfg, s1, env, ic, row, keys + {ic.batchKey}, letter, middle, after);
    SettleableDraw(cfg, s, env, ic, row);
    SameSettled(cfg, s, s1.chain, env, ic, row, s.instructions[(row.externalPartnerId, row.settlementReference)],
                ImportRows(cfg, s1, env, ic, [row]).value.0.chain);
  }

  lemma SameSettled(cfg: Config, s: State, chain: Chain, env: Env, ic: ImportContext, row: CsvRow, i: Instruction, later: Chain)
    requires i.drawId in s.draws
    ensures SettledTables(cfg, s.(chain := chain), env, ic, row, i).(chain := later) == SettledTables(cfg, s, env, ic, row, i).(chain := later)
  {
    hide NewConfirmation;
  }
}
