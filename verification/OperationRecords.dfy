/** The event each operation logs, field by field, and the rows it writes. */
module OperationRecords {
  import opened Decimal
  import opened CanonicalJson
  import opened EventRecords
  import opened EventTexts
  import opened CanonicalText
  import opened Ledger
  import opened DrawMachine
  import opened ConfirmationCsv
  import opened Workflow
  import opened WorkflowChanges
  import opened WorkflowRuns
  import opened WorkflowHistory
  import opened WorkflowAcceptance

  // ---------------------------------------------------------------------------
  // One more event
  // ---------------------------------------------------------------------------

  /** An event as a reader of the log sees it, without the hashes, ids and times the ledger adds. */
  datatype Event = Event(
    kind: string,
    aggregateType: string,
    aggregateId: string,
    actor: string,
    actorType: string,
    role: string,
    before: Option<string>,
    after: Option<string>,
    policyVersion: string,
    manifestHash: string,
    key: string)

  /** Exactly one event is added: this one, with the payload that prints as `text`. */
  ghost predicate Logged(cfg: Config, before: Chain, after: Chain, env: Env, at: (nat, nat), e: Event, text: string) {
    && |after.rows| == |before.rows| + 1 && before.rows == after.rows[..|before.rows|]
    && var row := after.rows[|before.rows|];
       && row.envelope.eventType == e.kind && row.envelope.aggregateType == e.aggregateType && row.envelope.aggregateId == e.aggregateId
       && row.envelope.actorId == e.actor && row.envelope.actorRole == e.role && row.envelope.actorType == e.actorType
       && row.envelope.stateBefore == e.before && row.envelope.stateAfter == e.after
       && row.envelope.policyVersion == e.policyVersion && row.envelope.evidenceManifestHash == e.manifestHash
       && row.envelope.idempotencyKey == e.key && row.envelope.tenantId == cfg.tenant
       && row.envelope.eventId == env.id(at.0, at.1) && row.envelope.occurredAt == env.now && row.recordedAt == env.now
       && row.chainSeq == |before.rows| + 1
       && Parse(text) == Some(row.payload)
  }

  /** Who a role stands for, where the event does not say. */
  function TypeOfActor(role: string): string {
    if role == "system" then "SYSTEM"
    else if role in ["EscrowPartner", "partner"] then "PARTNER"
    else if role == "SuperAgent" then "SUPER_AGENT" else "USER"
  }

  function InputEvent(input: AppendInput): Event {
    Event(input.eventType, if input.aggregateType == "" then "DRAW_REQUEST" else input.aggregateType, input.aggregateId, input.actorId,
          if input.actorType == "" then TypeOfActor(input.actorRole) else input.actorType, input.actorRole,
          input.stateBefore, input.stateAfter, input.policyVersion, input.evidenceManifestHash, input.idempotencyKey)
  }

  lemma LogAdds(cfg: Config, s: State, env: Env, at: (nat, nat), input: AppendInput, payload: Json)
    requires Sound(cfg.sha, s.chain) && Unrecorded(s.chain.rows, input.idempotencyKey, input.eventType)
    requires Log(cfg, s, env, at, input).Ok? && input.payload == Some(payload)
    ensures var t := Log(cfg, s, env, at, input).value;
            t == s.(chain := t.chain) && Sound(cfg.sha, t.chain) && Logged(cfg, s.chain, t.chain, env, at, InputEvent(input), AuditText(payload))
  {
    LogExtends(cfg, s, env, at, input);
    var stamp := Stamp(env.id(at.0, at.1), env.now, env.now);
    hide AuditText, Parse, EnvelopeMembers, Unrecorded, Carries, Linked, Unique;
    var r := AppendTo(cfg.sha, s.chain, cfg.tenant, input, stamp, true);
    assert r.chain != s.chain;
    AppendedRowIs(cfg.sha, s.chain, cfg.tenant, input, stamp, true, payload);
    CarriedEvent(r.row.envelope, input, stamp);
  }

  lemma CarriedEvent(v: Envelope, input: AppendInput, stamp: Stamp)
    requires Carries(v, input, stamp)
    ensures v.eventType == input.eventType && v.aggregateId == input.aggregateId && v.actorId == input.actorId && v.actorRole == input.actorRole
    ensures v.aggregateType == InputEvent(input).aggregateType && v.actorType == InputEvent(input).actorType
    ensures v.stateBefore == input.stateBefore && v.stateAfter == input.stateAfter && v.policyVersion == input.policyVersion
    ensures v.evidenceManifestHash == input.evidenceManifestHash && v.idempotencyKey == input.idempotencyKey
    ensures v.eventId == stamp.eventId && v.occurredAt == stamp.occurredAt && v.tenantId == input.tenantId
  {
  }

  /** What a move of a draw logs: from its state to the next, under its locked policy and manifest. */
  function MoveOf(d: DrawRequest, target: Status, kind: string, subject: string, role: string, key: string): Event {
    Event(kind, "DRAW_REQUEST", d.id, subject, "USER", role, Some(StatusName(d.status)), Some(StatusName(target)),
          if d.lockedPolicyVersion.Some? then d.lockedPolicyVersion.value else "",
          if d.lockedManifestHash.Some? then d.lockedManifestHash.value else "", key)
  }

  lemma MoveAdds(cfg: Config, s: State, env: Env, at: (nat, nat), d: DrawRequest, target: Status, subject: string, role: string,
                 ctx: Option<ApprovalContext>, key: string, payload: Json)
    requires Sound(cfg.sha, s.chain) && Unrecorded(s.chain.rows, key, EventForTarget(target))
    requires TransitionDraw(cfg, s, env, at, d, target, subject, role, ctx, key, payload).Ok?
    ensures var t := TransitionDraw(cfg, s, env, at, d, target, subject, role, ctx, key, payload).value.0;
            t == s.(chain := t.chain) && Sound(cfg.sha, t.chain)
            && Logged(cfg, s.chain, t.chain, env, at, MoveOf(d, target, EventForTarget(target), subject, role, key), AuditText(payload))
  {
    hide Log, Logged, Unrecorded, Blocks, EventForTarget, StatusName, AllowedTransitions, AuditText, Sound;
    LogAdds(cfg, s, env, at, MoveEvent(cfg, subject, role, d, Some(d.status), target, EventForTarget(target), key, payload), payload);
  }

  // ---------------------------------------------------------------------------
  // Who acts
  // ---------------------------------------------------------------------------

  /** The role is the first of the allowed ones that the person may act in. */
  ghost predicate ActsAs(env: Env, subject: string, roles: seq<string>, scopes: seq<string>, role: string) {
    exists i :: 0 <= i < |roles| && roles[i] == role && MayAct(env, subject, [role], scopes)
                && forall j :: 0 <= j < i ==> !MayAct(env, subject, [roles[j]], scopes)
  }

  lemma HoldsMeansMay(env: Env, subject: string, role: string, scopes: seq<string>)
    ensures HoldsRole(env, subject, role, scopes) <==> MayAct(env, subject, [role], scopes)
  {
    assert forall r: string :: r in [role] <==> r == role;
  }

  lemma RoleIsFirst(env: Env, subject: string, roles: seq<string>, scopes: seq<string>)
    requires RequireRole(env, subject, roles, scopes).Ok?
    ensures ActsAs(env, subject, roles, scopes, RequireRole(env, subject, roles, scopes).value)
    ensures RequireRole(env, subject, roles, scopes).value in roles
  {
    RoleGranted(env, subject, roles, scopes);
    hide HoldsRole, MayAct;
    var role := RequireRole(env, subject, roles, scopes).value;
    var i :| 0 <= i < |roles| && role == roles[i] && HoldsRole(env, subject, roles[i], scopes)
             && forall j :: 0 <= j < i ==> !HoldsRole(env, subject, roles[j], scopes);
    HoldsMeansMay(env, subject, role, scopes);
    forall j | 0 <= j < i ensures !MayAct(env, subject, [roles[j]], scopes) { HoldsMeansMay(env, subject, roles[j], scopes); }
  }

  lemma UserRoles(role: string)
    requires role in ["BorrowerSponsor", "Inspector", "OperationsOwner", "Underwriter", "RiskOwner", "TreasuryOwner", "FundAdministrator"]
    ensures TypeOfActor(role) == "USER"
  {
  }

  lemma ChainSound(cfg: Config, s: State)
    requires Inv(cfg, s)
    ensures Sound(cfg.sha, s.chain)
  {
  }

  // ---------------------------------------------------------------------------
  // Drafts and evidence
  // ---------------------------------------------------------------------------

  /** A new draw is in DRAFT, holds what was asked for under a new id, and nothing else yet. */
  ghost predicate IsDraft(d: DrawRequest, env: Env, subject: string, input: DraftInput) {
    && d.id == env.id(0, 0) && d.status == Draft && d.requestedBy == subject && input.dealId in env.deals && d.spvId == env.deals[input.dealId].spvId
    && d.dealId == input.dealId && d.requestNumber == input.requestNumber && d.payeeCounterpartyId == input.payeeCounterpartyId
    && d.payeeBankAccountId == input.payeeBankAccountId && ParseMinor(input.amountRequested) == Some(d.amountRequested)
    && d.currency == input.currency == env.deals[input.dealId].currency && d.budgetLineIds == input.budgetLineIds
    && d.idempotencyKey == input.idempotencyKey && d.reconciliationStatus == Pending
    && d.amountApproved == None && d.submittedAt == None && d.lockedPolicyVersion == None && d.lockedManifestHash == None
    && d.approvalBindingHash == None && d.policyEvaluationId == None
  }

  function CreatedEvent(cfg: Config, env: Env, subject: string, role: string, input: DraftInput, amount: nat): AppendInput {
    PlainEvent(cfg, subject, role, "DRAW_CREATED", "DRAW_REQUEST", env.id(0, 0), input.idempotencyKey,
               CreatedPayload(input, amount)).(stateAfter := Some("DRAFT"))
  }

  lemma CreateAccepted(cfg: Config, s: State, env: Env, subject: string, input: DraftInput)
    requires CreateDraft(cfg, s, env, subject, input).Ok? && !DrawWithKey(s.draws, input.idempotencyKey)
    ensures ParseMinor(input.amountRequested).Some? && RequireRole(env, subject, ["BorrowerSponsor", "OperationsOwner"], [input.dealId]).Ok?
    ensures input.dealId in env.deals && env.deals[input.dealId].currency == input.currency && env.id(0, 0) !in s.draws
    ensures var t, role := CreateDraft(cfg, s, env, subject, input).value, RequireRole(env, subject, ["BorrowerSponsor", "OperationsOwner"], [input.dealId]).value;
            var logged := Log(cfg, s, env, (0, 1), CreatedEvent(cfg, env, subject, role, input, ParseMinor(input.amountRequested).value));
            logged.Ok? && t == logged.value.(draws := logged.value.draws[env.id(0, 0) :=
              NewDraw(env, subject, env.deals[input.dealId].spvId, input, ParseMinor(input.amountRequested).value)])
  {
    hide Log, RequireRole, ParseMinor, DrawWithKey, CreatedPayload, RowChecks, NumberTaken;
  }

  lemma CreatedIs(cfg: Config, env: Env, subject: string, role: string, input: DraftInput, amount: nat)
    ensures var e := CreatedEvent(cfg, env, subject, role, input, amount);
            && e.payload == Some(CreatedPayload(input, amount)) && e.idempotencyKey == input.idempotencyKey && e.eventType == "DRAW_CREATED"
            && InputEvent(e) == Event("DRAW_CREATED", "DRAW_REQUEST", env.id(0, 0), subject, TypeOfActor(role), role, None, Some("DRAFT"), "", "", input.idempotencyKey)
  {
    hide CreatedPayload;
  }

  lemma NewDrawIs(env: Env, subject: string, input: DraftInput, amount: nat)
    requires input.dealId in env.deals && env.deals[input.dealId].currency == input.currency && ParseMinor(input.amountRequested) == Some(amount)
    ensures IsDraft(NewDraw(env, subject, env.deals[input.dealId].spvId, input, amount), env, subject, input)
  {
    hide ParseMinor;
  }

  /** An accepted creation under a new key adds this draft and this event. */
  lemma CreateRecords(cfg: Config, s: State, env: Env, subject: string, input: DraftInput) returns (role: string, amount: nat)
    requires Inv(cfg, s) && CreateDraft(cfg, s, env, subject, input).Ok? && !DrawWithKey(s.draws, input.idempotencyKey)
    ensures ActsAs(env, subject, ["BorrowerSponsor", "OperationsOwner"], [input.dealId], role) && ParseMinor(input.amountRequested) == Some(amount)
    ensures var t, id := CreateDraft(cfg, s, env, subject, input).value, env.id(0, 0);
            && id !in s.draws && id in t.draws && t == s.(chain := t.chain, draws := s.draws[id := t.draws[id]])
            && IsDraft(t.draws[id], env, subject, input)
            && Logged(cfg, s.chain, t.chain, env, (0, 1),
                      Event("DRAW_CREATED", "DRAW_REQUEST", id, subject, "USER", role, None, Some("DRAFT"), "", "", input.idempotencyKey),
                      "{" + Fields(CreatedFields(input, amount)) + "}")
  {
    hide *;
    StoredUnder(cfg, s);
    ChainSound(cfg, s);
    CreateAccepted(cfg, s, env, subject, input);
    role := RequireRole(env, subject, ["BorrowerSponsor", "OperationsOwner"], [input.dealId]).value;
    amount := ParseMinor(input.amountRequested).value;
    RoleIsFirst(env, subject, ["BorrowerSponsor", "OperationsOwner"], [input.dealId]);
    UserRoles(role);
    CreatedPrints(input, amount);
    NewKeyUnrecorded(s, input.idempotencyKey);
    CreatedIs(cfg, env, subject, role, input, amount);
    NewDrawIs(env, subject, input, amount);
    LogAdds(cfg, s, env, (0, 1), CreatedEvent(cfg, env, subject, role, input, amount), CreatedPayload(input, amount));
  }

  lemma NewKeyUnrecorded(s: State, key: string)
    requires CreationsKeyed(s.chain.rows, s.draws) && !DrawWithKey(s.draws, key)
    ensures Unrecorded(s.chain.rows, key, "DRAW_CREATED")
  {
  }

  lemma UnusedMove(s: State, key: string, target: Status)
    requires !KeyUsed(s.chain.rows, key)
    ensures Unrecorded(s.chain.rows, key, EventForTarget(target))
  {
    UnusedIsUnrecorded(s.chain.rows, key, EventForTarget(target));
  }

  /** Of the earlier documents of a draw and type, one of the highest version. */
  ghost predicate IsNewest(documents: seq<Document>, drawId: string, documentType: string, d: Document) {
    d in documents && d.drawId == drawId && d.documentType == documentType
    && forall e :: e in documents && e.drawId == drawId && e.documentType == documentType ==> e.version <= d.version
  }

  lemma {:induction false} LatestIsNewest(documents: seq<Document>, drawId: string, documentType: string)
    ensures var r := Latest(documents, drawId, documentType);
            if r.Some? then IsNewest(documents, drawId, documentType, r.value)
            else forall e :: e in documents ==> e.drawId != drawId || e.documentType != documentType
  {
    if documents != [] {
      var front, last := documents[..|documents| - 1], documents[|documents| - 1];
      LatestIsNewest(front, drawId, documentType);
      assert documents == front + [last];
      assert forall e :: e in documents <==> e in front || e == last;
    }
  }

  /** A new document is the uploaded content's hash, unverified, one version above the newest of its draw and type, which it supersedes. */
  ghost predicate IsUpload(cfg: Config, s: State, env: Env, subject: string, d: DrawRequest, input: UploadInput, doc: Document) {
    && doc.id == env.id(0, 0) && doc.drawId == d.id && doc.dealId == d.dealId && doc.documentType == input.documentType
    && doc.contentHash == "sha256:" + cfg.sha(input.content) && doc.uploadedBy == subject && !doc.verified
    && if doc.supersedes == None then doc.version == 1 && forall e :: e in s.documents ==> e.drawId != d.id || e.documentType != input.documentType
       else exists e :: IsNewest(s.documents, d.id, input.documentType, e) && doc.supersedes == Some(e.id) && doc.version == e.version + 1
  }

  lemma NewDocumentIs(cfg: Config, s: State, env: Env, subject: string, d: DrawRequest, input: UploadInput)
    ensures IsUpload(cfg, s, env, subject, d, input, NewDocument(cfg, s, env, subject, d, input))
  {
    LatestIsNewest(s.documents, d.id, input.documentType);
    hide Latest, IsNewest;
  }

  lemma UploadAccepted(cfg: Config, s: State, env: Env, subject: string, input: UploadInput)
    requires UploadEvidence(cfg, s, env, subject, input).Ok? && !KeyUsed(s.chain.rows, input.idempotencyKey)
    ensures input.drawId in s.draws && s.draws[input.drawId].status == Draft
    ensures RequireRole(env, subject, ["BorrowerSponsor", "Inspector", "OperationsOwner"], [s.draws[input.drawId].dealId]).Ok?
    ensures var t, d := UploadEvidence(cfg, s, env, subject, input).value, s.draws[input.drawId];
            var role := RequireRole(env, subject, ["BorrowerSponsor", "Inspector", "OperationsOwner"], [d.dealId]).value;
            var doc := NewDocument(cfg, s, env, subject, d, input);
            var logged := Log(cfg, s, env, (0, 1), UploadedEvent(cfg, subject, role, d.id, input.idempotencyKey, doc));
            logged.Ok? && t == logged.value.(documents := logged.value.documents + [doc])
  {
    hide Log, RequireRole, KeyUsed, HasContent, Latest, UploadedPayload, DOCUMENT_TYPES, DocumentExists;
  }

  function UploadedEvent(cfg: Config, subject: string, role: string, drawId: string, key: string, doc: Document): AppendInput {
    PlainEvent(cfg, subject, role, if doc.supersedes.Some? then "EVIDENCE_SUPERSEDED" else "EVIDENCE_UPLOADED", "DRAW_REQUEST", drawId, key,
               UploadedPayload(doc))
  }

  lemma UploadedIs(cfg: Config, subject: string, role: string, drawId: string, key: string, doc: Document)
    ensures var e := UploadedEvent(cfg, subject, role, drawId, key, doc);
            var kind := if doc.supersedes == None then "EVIDENCE_UPLOADED" else "EVIDENCE_SUPERSEDED";
            && e.payload == Some(UploadedPayload(doc)) && e.idempotencyKey == key && e.eventType == kind
            && InputEvent(e) == Event(kind, "DRAW_REQUEST", drawId, subject, TypeOfActor(role), role, None, None, "", "", key)
  {
    hide UploadedPayload;
  }

  /** An accepted upload under a new key adds this document to a draft and logs it as uploaded or superseding. */
  lemma UploadRecords(cfg: Config, s: State, env: Env, subject: string, input: UploadInput) returns (role: string, doc: Document)
    requires Inv(cfg, s) && UploadEvidence(cfg, s, env, subject, input).Ok? && !KeyUsed(s.chain.rows, input.idempotencyKey)
    ensures input.drawId in s.draws && s.draws[input.drawId].status == Draft
    ensures var t, d := UploadEvidence(cfg, s, env, subject, input).value, s.draws[input.drawId];
            && ActsAs(env, subject, ["BorrowerSponsor", "Inspector", "OperationsOwner"], [d.dealId], role)
            && IsUpload(cfg, s, env, subject, d, input, doc) && t == s.(chain := t.chain, documents := s.documents + [doc])
            && Logged(cfg, s.chain, t.chain, env, (0, 1),
                      Event(if doc.supersedes == None then "EVIDENCE_UPLOADED" else "EVIDENCE_SUPERSEDED", "DRAW_REQUEST", d.id, subject, "USER", role,
                            None, None, "", "", input.idempotencyKey),
                      "{" + Fields(UploadedFields(doc)) + "}")
  {
    hide *;
    ChainSound(cfg, s);
    UploadAccepted(cfg, s, env, subject, input);
    var d := s.draws[input.drawId];
    role := RequireRole(env, subject, ["BorrowerSponsor", "Inspector", "OperationsOwner"], [d.dealId]).value;
    doc := NewDocument(cfg, s, env, subject, d, input);
    RoleIsFirst(env, subject, ["BorrowerSponsor", "Inspector", "OperationsOwner"], [d.dealId]);
    UserRoles(role);
    NewDocumentIs(cfg, s, env, subject, d, input);
    UploadedPrints(doc);
    UploadedIs(cfg, subject, role, d.id, input.idempotencyKey, doc);
    UnusedIsUnrecorded(s.chain.rows, input.idempotencyKey, UploadedEvent(cfg, subject, role, d.id, input.idempotencyKey, doc).eventType);
    LogAdds(cfg, s, env, (0, 1), UploadedEvent(cfg, subject, role, d.id, input.idempotencyKey, doc), UploadedPayload(doc));
  }

  lemma VerifyAccepted(cfg: Config, s: State, env: Env, subject: string, documentId: string, key: string)
    requires VerifyEvidence(cfg, s, env, subject, documentId, key).Ok? && !KeyUsed(s.chain.rows, key)
    ensures FindDocument(s.documents, documentId).Some?
    ensures var i := FindDocument(s.documents, documentId).value;
            var t, doc, allowed := VerifyEvidence(cfg, s, env, subject, documentId, key).value, s.documents[i], ["OperationsOwner", "Inspector", "Underwriter", "RiskOwner"];
            doc.uploadedBy != subject && RequireRole(env, subject, allowed, [doc.dealId]).Ok? &&
            var logged := Log(cfg, s, env, (0, 1), PlainEvent(cfg, subject, RequireRole(env, subject, allowed, [doc.dealId]).value, "EVIDENCE_VERIFIED",
                                                             "DRAW_REQUEST", doc.drawId, key, VerifiedPayload(documentId, doc.contentHash)));
            logged.Ok? && t == logged.value.(documents := logged.value.documents[i := doc.(verified := true)])
  {
    hide Log, RequireRole, KeyUsed, FindDocument, VerifiedPayload;
  }

  lemma PlainIs(cfg: Config, subject: string, role: string, kind: string, aggregateType: string, aggregateId: string, key: string, payload: Json)
    requires aggregateType != ""
    ensures var e := PlainEvent(cfg, subject, role, kind, aggregateType, aggregateId, key, payload);
            && e.payload == Some(payload) && e.idempotencyKey == key && e.eventType == kind
            && InputEvent(e) == Event(kind, aggregateType, aggregateId, subject, TypeOfActor(role), role, None, None, "", "", key)
  {
  }

  /** An accepted verification under a new key marks the document, which the caller did not upload, and logs its content hash. */
  lemma VerifyRecords(cfg: Config, s: State, env: Env, subject: string, documentId: string, key: string) returns (role: string, i: nat)
    requires Inv(cfg, s) && VerifyEvidence(cfg, s, env, subject, documentId, key).Ok? && !KeyUsed(s.chain.rows, key)
    ensures i < |s.documents| && s.documents[i].id == documentId && s.documents[i].uploadedBy != subject
    ensures var t, doc := VerifyEvidence(cfg, s, env, subject, documentId, key).value, s.documents[i];
            && ActsAs(env, subject, ["OperationsOwner", "Inspector", "Underwriter", "RiskOwner"], [doc.dealId], role)
            && t == s.(chain := t.chain, documents := s.documents[i := doc.(verified := true)])
            && Logged(cfg, s.chain, t.chain, env, (0, 1),
                      Event("EVIDENCE_VERIFIED", "DRAW_REQUEST", doc.drawId, subject, "USER", role, None, None, "", "", key),
                      "{" + Fields([("content_hash", Quote(doc.contentHash)), ("document_id", Quote(documentId))]) + "}")
  {
    hide *;
    ChainSound(cfg, s);
    VerifyAccepted(cfg, s, env, subject, documentId, key);
    i := FindDocument(s.documents, documentId).value;
    var doc := s.documents[i];
    role := RequireRole(env, subject, ["OperationsOwner", "Inspector", "Underwriter", "RiskOwner"], [doc.dealId]).value;
    RoleIsFirst(env, subject, ["OperationsOwner", "Inspector", "Underwriter", "RiskOwner"], [doc.dealId]);
    UserRoles(role);
    VerifiedPrints(documentId, doc.contentHash);
    var payload := VerifiedPayload(documentId, doc.contentHash);
    PlainIs(cfg, subject, role, "EVIDENCE_VERIFIED", "DRAW_REQUEST", doc.drawId, key, payload);
    UnusedIsUnrecorded(s.chain.rows, key, "EVIDENCE_VERIFIED");
    LogAdds(cfg, s, env, (0, 1), PlainEvent(cfg, subject, role, "EVIDENCE_VERIFIED", "DRAW_REQUEST", doc.drawId, key, payload), payload);
  }

  // ---------------------------------------------------------------------------
  // Moves of a draw
  // ---------------------------------------------------------------------------

  /** The draw's event of a move, under the policy and manifest it then has locked. */
  function MoveEventOf(kind: string, drawId: string, subject: string, role: string, before: string, after: string,
                       policyVersion: string, manifestHash: string, key: string): Event {
    Event(kind, "DRAW_REQUEST", drawId, subject, "USER", role, Some(before), Some(after), policyVersion, manifestHash, key)
  }

  lemma SaveKeepsChain()
    ensures forall s: State, d: DrawRequest, next: DrawRequest :: SaveDraw(s, d, next).Ok? ==> SaveDraw(s, d, next).value.chain == s.chain
  {
    hide RowChecks, LocksKept;
  }

  lemma SubmitAccepted(cfg: Config, s: State, env: Env, subject: string, drawId: string, key: string)
    requires Submit(cfg, s, env, subject, drawId, key).Ok? && !KeyUsed(s.chain.rows, key)
    ensures drawId in s.draws && s.draws[drawId].dealId in env.deals && Submitted in AllowedTransitions(s.draws[drawId].status)
    ensures var t, d, documents := Submit(cfg, s, env, subject, drawId, key).value, s.draws[drawId], CurrentDocuments(s.documents, drawId);
            var hash, version := ManifestHash(cfg, documents), env.deals[d.dealId].policyVersion;
            var moved := TransitionDraw(cfg, s, env, (0, 1), d.(lockedPolicyVersion := Some(version), lockedManifestHash := Some(hash)), Submitted, subject,
                                        "Requester", None, key, SubmittedPayload(hash, version, documents));
            moved.Ok? && t.chain == moved.value.0.chain
  {
    SaveKeepsChain();
    hide SaveDraw, KeyUsed, CurrentDocuments, ManifestHash, SubmittedPayload, Ids, Log, Blocks;
  }

  lemma MoveNamed(d: DrawRequest, target: Status, kind: string, subject: string, role: string, key: string)
    ensures MoveOf(d, target, kind, subject, role, key)
         == MoveEventOf(kind, d.id, subject, role, StatusName(d.status), StatusName(target), TextOr(d.lockedPolicyVersion), TextOr(d.lockedManifestHash), key)
  {
    hide StatusName;
  }

  /** An accepted submission under a new key logs the move to SUBMITTED under the policy and the manifest it locks, with the documents. */
  lemma SubmitRecords(cfg: Config, s: State, env: Env, subject: string, drawId: string, key: string)
    requires Inv(cfg, s) && Submit(cfg, s, env, subject, drawId, key).Ok? && !KeyUsed(s.chain.rows, key)
    ensures drawId in s.draws && s.draws[drawId].dealId in env.deals
    ensures var t, d, documents := Submit(cfg, s, env, subject, drawId, key).value, s.draws[drawId], CurrentDocuments(s.documents, drawId);
            var hash, version := ManifestHash(cfg, documents), env.deals[d.dealId].policyVersion;
            Logged(cfg, s.chain, t.chain, env, (0, 1),
                   MoveEventOf("DRAW_SUBMITTED", d.id, subject, "Requester", "DRAFT", "SUBMITTED", version, hash, key),
                   "{" + Fields([("documents", AuditText(Arr(ItemsJson(documents)))), ("manifest_hash", Quote(hash)), ("policy_version", Quote(version))]) + "}")
  {
    SubmitNames(s, drawId);
    hide *;
    ChainSound(cfg, s);
    SubmitAccepted(cfg, s, env, subject, drawId, key);
    UnusedMove(s, key, Submitted);
    var d, documents := s.draws[drawId], CurrentDocuments(s.documents, drawId);
    var hash, version := ManifestHash(cfg, documents), env.deals[d.dealId].policyVersion;
    var locked := d.(lockedPolicyVersion := Some(version), lockedManifestHash := Some(hash));
    MoveAdds(cfg, s, env, (0, 1), locked, Submitted, subject, "Requester", None, key, SubmittedPayload(hash, version, documents));
    MoveNamed(locked, Submitted, "DRAW_SUBMITTED", subject, "Requester", key);
    LockedTexts(version, hash);
    SubmittedPrints(hash, version, documents);
  }

  lemma LockedTexts(version: string, hash: string)
    ensures TextOr(Some(version)) == version && TextOr(Some(hash)) == hash
  {
  }

  lemma SubmitNames(s: State, drawId: string)
    ensures EventForTarget(Submitted) == "DRAW_SUBMITTED" && StatusName(Draft) == "DRAFT" && StatusName(Submitted) == "SUBMITTED"
    ensures drawId in s.draws && Submitted in AllowedTransitions(s.draws[drawId].status) ==> s.draws[drawId].status == Draft
  {
    if drawId in s.draws && Submitted in AllowedTransitions(s.draws[drawId].status) { OnlyDraftIsSubmitted(s.draws[drawId].status); }
  }

  lemma EvaluateAccepted(cfg: Config, s: State, env: Env, subject: string, drawId: string, key: string)
    requires Evaluate(cfg, s, env, subject, drawId, key).Ok? && !KeyUsed(s.chain.rows, key)
    ensures drawId in s.draws && UnderReview in AllowedTransitions(s.draws[drawId].status)
    ensures RequireRole(env, subject, ["OperationsOwner", "RiskOwner", "Underwriter", "LenderAdmin"], [s.draws[drawId].dealId]).Ok?
    ensures PackOf(cfg, s.draws[drawId].lockedPolicyVersion).Ok?
    ensures var t, d, id := Evaluate(cfg, s, env, subject, drawId, key).value, s.draws[drawId], env.id(0, 0);
            var role := RequireRole(env, subject, ["OperationsOwner", "RiskOwner", "Underwriter", "LenderAdmin"], [d.dealId]).value;
            var pack := PackOf(cfg, d.lockedPolicyVersion).value;
            var moved := TransitionDraw(cfg, s, env, (0, 1), d, UnderReview, subject, role, None, key, EvaluatedPayload(s, drawId, id, pack));
            moved.Ok? && t.chain == moved.value.0.chain && id !in s.evaluations
            && t.evaluations == s.evaluations[id := Evaluation(drawId, d.lockedPolicyVersion.value, d.lockedManifestHash, ManifestComplete(s, drawId, pack))]
  {
    SaveKeepsChain();
    SaveKeepsEvaluations();
    MoveKeepsEvaluations(cfg, env);
    hide SaveDraw, KeyUsed, RequireRole, EvaluatedPayload, ManifestComplete, Log, Blocks;
  }

  lemma MoveKeepsEvaluations(cfg: Config, env: Env)
    ensures forall s: State, at: (nat, nat), input: AppendInput ::
      Log(cfg, s, env, at, input).Ok? ==> Log(cfg, s, env, at, input).value.evaluations == s.evaluations
  {
    hide AppendTo;
  }

  lemma SaveKeepsEvaluations()
    ensures forall s: State, d: DrawRequest, next: DrawRequest :: SaveDraw(s, d, next).Ok? ==> SaveDraw(s, d, next).value.evaluations == s.evaluations
  {
    hide RowChecks, LocksKept;
  }

  lemma PackIs(cfg: Config, version: Option<string>)
    requires PackOf(cfg, version).Ok?
    ensures version.Some? && version.value in cfg.packs && PackOf(cfg, version).value == cfg.packs[version.value]
  {
  }

  /** An accepted evaluation under a new key records PASS exactly if every required type is frozen, of the locked policy and manifest, and logs it. */
  lemma EvaluateRecords(cfg: Config, s: State, env: Env, subject: string, drawId: string, key: string) returns (role: string, version: string)
    requires Inv(cfg, s) && Evaluate(cfg, s, env, subject, drawId, key).Ok? && !KeyUsed(s.chain.rows, key)
    ensures drawId in s.draws && s.draws[drawId].lockedPolicyVersion == Some(version) && version in cfg.packs
    ensures var t, d, id, pack := Evaluate(cfg, s, env, subject, drawId, key).value, s.draws[drawId], env.id(0, 0), cfg.packs[version];
            && ActsAs(env, subject, ["OperationsOwner", "RiskOwner", "Underwriter", "LenderAdmin"], [d.dealId], role)
            && id !in s.evaluations && id in t.evaluations && t.evaluations == s.evaluations[id := t.evaluations[id]]
            && t.evaluations[id] == Evaluation(drawId, version, d.lockedManifestHash, t.evaluations[id].passed)
            && (t.evaluations[id].passed <==> forall k :: k in pack.requiredEvidence ==> exists doc :: Frozen(s, d.id, doc) && doc.documentType == k)
            && Logged(cfg, s.chain, t.chain, env, (0, 1),
                      MoveEventOf("DRAW_POLICY_EVALUATED", d.id, subject, role, StatusName(d.status), "UNDER_REVIEW", version, TextOr(d.lockedManifestHash), key),
                      AuditText(EvaluatedPayload(s, drawId, id, pack)))
  {
    EvaluateNames();
    hide *;
    ChainSound(cfg, s);
    StoredUnder(cfg, s);
    EvaluateAccepted(cfg, s, env, subject, drawId, key);
    KeyedAt(s.draws, drawId);
    UnusedMove(s, key, UnderReview);
    var d, id := s.draws[drawId], env.id(0, 0);
    PackIs(cfg, d.lockedPolicyVersion);
    version := d.lockedPolicyVersion.value;
    LockedTexts(version, "");
    var pack := cfg.packs[version];
    role := RequireRole(env, subject, ["OperationsOwner", "RiskOwner", "Underwriter", "LenderAdmin"], [d.dealId]).value;
    RoleIsFirst(env, subject, ["OperationsOwner", "RiskOwner", "Underwriter", "LenderAdmin"], [d.dealId]);
    MoveAdds(cfg, s, env, (0, 1), d, UnderReview, subject, role, None, key, EvaluatedPayload(s, drawId, id, pack));
    MoveNamed(d, UnderReview, "DRAW_POLICY_EVALUATED", subject, role, key);
    CompleteMeans(s, d, pack);
  }

  lemma KeyedAt(draws: map<string, DrawRequest>, id: string)
    requires Keyed(draws) && id in draws
    ensures draws[id].id == id
  {
  }

  lemma EvaluateNames()
    ensures EventForTarget(UnderReview) == "DRAW_POLICY_EVALUATED" && StatusName(UnderReview) == "UNDER_REVIEW"
  {
  }

  // ---------------------------------------------------------------------------
  // Approval
  // ---------------------------------------------------------------------------

  /** Those whose approvals of the draw under this binding are on record. */
  ghost function Voters(s: State, d: DrawRequest, hash: string): set<string> {
    set decision | decision in s.decisions && decision.drawId == d.id && decision.bindingHash == hash :: decision.approver
  }

  lemma VotersAre(s: State, d: DrawRequest, hash: string)
    ensures Approvers(s.decisions, d.id, hash) == Voters(s, d, hash)
  {
    forall a ensures a in Approvers(s.decisions, d.id, hash) <==> a in Voters(s, d, hash) {
      if a in Voters(s, d, hash) {
        var decision :| decision in s.decisions && decision.drawId == d.id && decision.bindingHash == hash && decision.approver == a;
        var i :| 0 <= i < |s.decisions| && s.decisions[i] == decision;
      }
    }
  }

  function ApprovalEvent(cfg: Config, subject: string, role: string, d: DrawRequest, key: string, payload: Json): AppendInput {
    PlainEvent(cfg, subject, role, "APPROVAL_RECORDED", "DRAW_REQUEST", d.id, key, payload)
      .(policyVersion := TextOr(d.lockedPolicyVersion), evidenceManifestHash := TextOr(d.lockedManifestHash))
  }

  lemma ApprovalIs(cfg: Config, subject: string, role: string, d: DrawRequest, key: string, payload: Json)
    ensures var e := ApprovalEvent(cfg, subject, role, d, key, payload);
            && e.payload == Some(payload) && e.idempotencyKey == key && e.eventType == "APPROVAL_RECORDED"
            && InputEvent(e) == Event("APPROVAL_RECORDED", "DRAW_REQUEST", d.id, subject, TypeOfActor(role), role, None, None,
                                      TextOr(d.lockedPolicyVersion), TextOr(d.lockedManifestHash), key)
  {
  }

  function Candidate(cfg: Config, d: DrawRequest, amount: nat): DrawRequest {
    d.(amountApproved := Some(amount), approvalBindingHash := Some(BindingHash(cfg, d, amount)))
  }

  /** The caller's approval completes the number of approvers the pack asks for. */
  ghost predicate Completes(s: State, subject: string, d: DrawRequest, hash: string, pack: PolicyPack) {
    |Voters(s, d, hash) + {subject}| >= pack.requiredApprovals
  }

  function ContextFor(cfg: Config, s: State, env: Env, subject: string, d: DrawRequest, amount: nat, input: ApproveInput): ApprovalContext
    requires ParseMinor(input.controls.remainingBudget).Some? && ParseMinor(input.controls.eligibleThisDraw).Some? && PackOf(cfg, d.lockedPolicyVersion).Ok?
  {
    ContextOf(s, env, subject, d, PackOf(cfg, d.lockedPolicyVersion).value, BindingHash(cfg, d, amount),
              ParseMinor(input.controls.remainingBudget).value, ParseMinor(input.controls.eligibleThisDraw).value, input.controls)
  }

  lemma CompletesMeans(cfg: Config, s: State, env: Env, subject: string, d: DrawRequest, amount: nat, input: ApproveInput)
    requires ParseMinor(input.controls.remainingBudget).Some? && ParseMinor(input.controls.eligibleThisDraw).Some? && PackOf(cfg, d.lockedPolicyVersion).Ok?
    ensures Blocks(ApprovalsIncomplete, Some(amount), d.amountRequested, ContextFor(cfg, s, env, subject, d, amount, input))
       <==> !Completes(s, subject, d, BindingHash(cfg, d, amount), PackOf(cfg, d.lockedPolicyVersion).value)
  {
    VotersAre(s, d, BindingHash(cfg, d, amount));
    hide BindingHash, ParseMinor, ManifestComplete, ManifestVerified, OpenHoldOn, PayeeVerified, SanctionsFresh, Approvers, Voters, PackOf;
  }

  lemma ApproveAccepted(cfg: Config, s: State, env: Env, subject: string, input: ApproveInput)
    requires Approve(cfg, s, env, subject, input).Ok? && !KeyUsed(s.chain.rows, input.idempotencyKey)
    ensures input.drawId in s.draws && PackOf(cfg, s.draws[input.drawId].lockedPolicyVersion).Ok?
    ensures ParseMinor(input.amountApproved).Some? && ParseMinor(input.controls.remainingBudget).Some? && ParseMinor(input.controls.eligibleThisDraw).Some?
    ensures var d := s.draws[input.drawId];
            RequireRole(env, subject, PackOf(cfg, d.lockedPolicyVersion).value.approverRoles, [d.dealId, d.spvId]).Ok?
    ensures var t, d, amount := Approve(cfg, s, env, subject, input).value, s.draws[input.drawId], ParseMinor(input.amountApproved).value;
            var role := RequireRole(env, subject, PackOf(cfg, d.lockedPolicyVersion).value.approverRoles, [d.dealId, d.spvId]).value;
            var ctx, payload := ContextFor(cfg, s, env, subject, d, amount, input), DecisionPayload(BindingHash(cfg, d, amount), amount, input.controls);
            t.decisions == s.decisions + [Decision(d.id, subject, role, d.lockedPolicyVersion, d.lockedManifestHash, BindingHash(cfg, d, amount), input.idempotencyKey)]
            && if Blocks(ApprovalsIncomplete, Some(amount), d.amountRequested, ctx)
               then var logged := Log(cfg, s, env, (0, 1), ApprovalEvent(cfg, subject, role, d, input.idempotencyKey, payload));
                    logged.Ok? && t == s.(chain := logged.value.chain, decisions := t.decisions)
               else var moved := TransitionDraw(cfg, s, env, (0, 1), Candidate(cfg, d, amount), Approved, subject, role, Some(ctx), input.idempotencyKey, payload);
                    moved.Ok? && t.chain == moved.value.0.chain
  {
    SaveKeepsChain();
    SaveKeepsDecisions();
    LogKeepsTables(cfg, env);
    hide Log, SaveDraw, KeyUsed, RequireRole, DecisionPayload, Blocks, ContextOf, BindingHash, ParseMinor, DecisionAllowed, AllowedTransitions, MoveEvent;
  }

  lemma SaveKeepsDecisions()
    ensures forall s: State, d: DrawRequest, next: DrawRequest :: SaveDraw(s, d, next).Ok? ==> SaveDraw(s, d, next).value.decisions == s.decisions
  {
    hide RowChecks, LocksKept;
  }

  lemma LogKeepsTables(cfg: Config, env: Env)
    ensures forall s: State, at: (nat, nat), input: AppendInput ::
      Log(cfg, s, env, at, input).Ok? ==> Log(cfg, s, env, at, input).value == s.(chain := Log(cfg, s, env, at, input).value.chain)
  {
    hide AppendTo;
  }

  /**
   * An accepted approval under a new key adds the decision, bound to amount and locks, and logs it: as recorded while approvers are
   * missing, as the move to APPROVED once the caller completes their number.
   */
  lemma ApproveRecords(cfg: Config, s: State, env: Env, subject: string, input: ApproveInput) returns (role: string, version: string, amount: nat)
    requires Inv(cfg, s) && Approve(cfg, s, env, subject, input).Ok? && !KeyUsed(s.chain.rows, input.idempotencyKey)
    ensures input.drawId in s.draws && s.draws[input.drawId].lockedPolicyVersion == Some(version) && version in cfg.packs
    ensures ParseMinor(input.amountApproved) == Some(amount)
    ensures var t, d, pack := Approve(cfg, s, env, subject, input).value, s.draws[input.drawId], cfg.packs[version];
            var hash, manifest := BindingHash(cfg, d, amount), TextOr(d.lockedManifestHash);
            && ActsAs(env, subject, pack.approverRoles, [d.dealId, d.spvId], role)
            && t.decisions == s.decisions + [Decision(d.id, subject, role, Some(version), d.lockedManifestHash, hash, input.idempotencyKey)]
            && Logged(cfg, s.chain, t.chain, env, (0, 1),
                      if Completes(s, subject, d, hash, pack)
                      then MoveEventOf("DRAW_APPROVED", d.id, subject, role, StatusName(d.status), "APPROVED", version, manifest, input.idempotencyKey)
                      else Event("APPROVAL_RECORDED", "DRAW_REQUEST", d.id, subject, TypeOfActor(role), role, None, None, version, manifest, input.idempotencyKey),
                      AuditText(DecisionPayload(hash, amount, input.controls)))
            && (!Completes(s, subject, d, hash, pack) ==> t == s.(chain := t.chain, decisions := t.decisions))
  {
    ApproveNames();
    hide *;
    ChainSound(cfg, s);
    ApproveAccepted(cfg, s, env, subject, input);
    var d := s.draws[input.drawId];
    PackIs(cfg, d.lockedPolicyVersion);
    version, amount := d.lockedPolicyVersion.value, ParseMinor(input.amountApproved).value;
    LockedTexts(version, "");
    var pack, payload := cfg.packs[version], DecisionPayload(BindingHash(cfg, d, amount), amount, input.controls);
    role := RequireRole(env, subject, pack.approverRoles, [d.dealId, d.spvId]).value;
    RoleIsFirst(env, subject, pack.approverRoles, [d.dealId, d.spvId]);
    CompletesMeans(cfg, s, env, subject, d, amount, input);
    if Completes(s, subject, d, BindingHash(cfg, d, amount), pack) {
      UnusedMove(s, input.idempotencyKey, Approved);
      MoveAdds(cfg, s, env, (0, 1), Candidate(cfg, d, amount), Approved, subject, role, Some(ContextFor(cfg, s, env, subject, d, amount, input)),
               input.idempotencyKey, payload);
      CandidateMoves(cfg, d, amount, subject, role, input.idempotencyKey);
    } else {
      UnusedIsUnrecorded(s.chain.rows, input.idempotencyKey, "APPROVAL_RECORDED");
      ApprovalIs(cfg, subject, role, d, input.idempotencyKey, payload);
      LogAdds(cfg, s, env, (0, 1), ApprovalEvent(cfg, subject, role, d, input.idempotencyKey, payload), payload);
    }
  }

  lemma CandidateMoves(cfg: Config, d: DrawRequest, amount: nat, subject: string, role: string, key: string)
    ensures MoveOf(Candidate(cfg, d, amount), Approved, "DRAW_APPROVED", subject, role, key)
         == MoveEventOf("DRAW_APPROVED", d.id, subject, role, StatusName(d.status), StatusName(Approved), TextOr(d.lockedPolicyVersion), TextOr(d.lockedManifestHash), key)
  {
    hide StatusName, BindingHash;
  }

  lemma ApproveNames()
    ensures EventForTarget(Approved) == "DRAW_APPROVED" && StatusName(Approved) == "APPROVED"
  {
  }

  // ---------------------------------------------------------------------------
  // Instruction and staging
  // ---------------------------------------------------------------------------

  lemma InstructAccepted(cfg: Config, s: State, env: Env, subject: string, input: InstructInput)
    requires Instruct(cfg, s, env, subject, input).Ok? && !KeyUsed(s.chain.rows, input.idempotencyKey)
    ensures input.drawId in s.draws && RequireRole(env, subject, ["TreasuryOwner"], [s.draws[input.drawId].dealId, s.draws[input.drawId].spvId]).Ok?
    ensures var t, d := Instruct(cfg, s, env, subject, input).value, s.draws[input.drawId];
            var role := RequireRole(env, subject, ["TreasuryOwner"], [d.dealId, d.spvId]).value;
            var moved := TransitionDraw(cfg, s, env, (0, 1), d, SettlementInstructed, subject, role, None, input.idempotencyKey, InstructedPayload(d, input));
            moved.Ok? && t.chain == moved.value.0.chain && role == "TreasuryOwner"
  {
    SaveKeepsChain();
    RoleIsFirst(env, subject, ["TreasuryOwner"], [s.draws[input.drawId].dealId, s.draws[input.drawId].spvId]);
    hide SaveDraw, KeyUsed, RequireRole, InstructedPayload, Log, Blocks, InstructionAllowed, Decided, ActsAs;
  }

  /** An accepted instruction under a new key logs the move with partner, reference, the approved amount and its binding. */
  lemma InstructRecords(cfg: Config, s: State, env: Env, subject: string, input: InstructInput)
    requires Inv(cfg, s) && Instruct(cfg, s, env, subject, input).Ok? && !KeyUsed(s.chain.rows, input.idempotencyKey)
    ensures input.drawId in s.draws
    ensures var t, d := Instruct(cfg, s, env, subject, input).value, s.draws[input.drawId];
            Logged(cfg, s.chain, t.chain, env, (0, 1),
                   MoveEventOf("DRAW_SETTLEMENT_INSTRUCTED", d.id, subject, "TreasuryOwner", StatusName(d.status), "SETTLEMENT_INSTRUCTED",
                               TextOr(d.lockedPolicyVersion), TextOr(d.lockedManifestHash), input.idempotencyKey),
                   "{" + Fields(InstructedFields(d, input)) + "}")
  {
    InstructNames();
    hide *;
    ChainSound(cfg, s);
    InstructAccepted(cfg, s, env, subject, input);
    UnusedMove(s, input.idempotencyKey, SettlementInstructed);
    var d := s.draws[input.drawId];
    MoveAdds(cfg, s, env, (0, 1), d, SettlementInstructed, subject, "TreasuryOwner", None, input.idempotencyKey, InstructedPayload(d, input));
    MoveNamed(d, SettlementInstructed, "DRAW_SETTLEMENT_INSTRUCTED", subject, "TreasuryOwner", input.idempotencyKey);
    InstructedPrints(d, input);
  }

  lemma InstructNames()
    ensures EventForTarget(SettlementInstructed) == "DRAW_SETTLEMENT_INSTRUCTED" && StatusName(SettlementInstructed) == "SETTLEMENT_INSTRUCTED"
  {
  }

  lemma StageAccepted(cfg: Config, s: State, env: Env, subject: string, batchKey: string, csv: string)
    requires StageCsv(cfg, s, env, subject, batchKey, csv).Ok? && batchKey !in s.batches
    ensures ParseConfirmationCsv(csv).Some? && RequireRole(env, subject, CSV_ENTRY_ROLES, []).Ok?
    ensures var t, hash, role := StageCsv(cfg, s, env, subject, batchKey, csv).value, "sha256:" + cfg.sha(csv), RequireRole(env, subject, CSV_ENTRY_ROLES, []).value;
            var logged := Log(cfg, s, env, (0, 1), PlainEvent(cfg, subject, role, "CSV_BATCH_STAGED", "SETTLEMENT_CONFIRMATION", batchKey, batchKey + ":staged",
                                                             StagedPayload(hash, |ParseConfirmationCsv(csv).value|)));
            logged.Ok? && t == logged.value.(batches := logged.value.batches[batchKey := Batch(csv, hash, subject)])
  {
    hide Log, RequireRole, ParseConfirmationCsv, StagedPayload;
  }

  lemma EntryRolesAre()
    ensures CSV_ENTRY_ROLES == ["TreasuryOwner", "OperationsOwner", "FundAdministrator", "RiskOwner"]
  {
  }

  /** An accepted staging under a new batch key keeps the entry under its hash and author, and logs hash and row count. */
  lemma StageRecords(cfg: Config, s: State, env: Env, subject: string, batchKey: string, csv: string) returns (role: string)
    requires Inv(cfg, s) && StageCsv(cfg, s, env, subject, batchKey, csv).Ok? && batchKey !in s.batches
    ensures ParseConfirmationCsv(csv).Some? && ActsAs(env, subject, ["TreasuryOwner", "OperationsOwner", "FundAdministrator", "RiskOwner"], [], role)
    ensures var t, hash := StageCsv(cfg, s, env, subject, batchKey, csv).value, "sha256:" + cfg.sha(csv);
            && t == s.(chain := t.chain, batches := s.batches[batchKey := Batch(csv, hash, subject)])
            && Logged(cfg, s.chain, t.chain, env, (0, 1),
                      Event("CSV_BATCH_STAGED", "SETTLEMENT_CONFIRMATION", batchKey, subject, "USER", role, None, None, "", "", batchKey + ":staged"),
                      "{" + Fields([("first_entry_hash", Quote(hash)), ("rows", Numeral(|ParseConfirmationCsv(csv).value|))]) + "}")
  {
    EntryRolesAre();
    hide *;
    ChainSound(cfg, s);
    StoredUnder(cfg, s);
    StageAccepted(cfg, s, env, subject, batchKey, csv);
    role := RequireRole(env, subject, CSV_ENTRY_ROLES, []).value;
    RoleIsFirst(env, subject, CSV_ENTRY_ROLES, []);
    EntryRoleIsUser(role);
    NotStaged(s.chain.rows, s.batches, batchKey);
    var hash, n := "sha256:" + cfg.sha(csv), |ParseConfirmationCsv(csv).value|;
    StagedPrints(hash, n);
    PlainIs(cfg, subject, role, "CSV_BATCH_STAGED", "SETTLEMENT_CONFIRMATION", batchKey, batchKey + ":staged", StagedPayload(hash, n));
    LogAdds(cfg, s, env, (0, 1), PlainEvent(cfg, subject, role, "CSV_BATCH_STAGED", "SETTLEMENT_CONFIRMATION", batchKey, batchKey + ":staged",
                                            StagedPayload(hash, n)), StagedPayload(hash, n));
  }

  lemma EntryRoleIsUser(role: string)
    requires role in CSV_ENTRY_ROLES
    ensures TypeOfActor(role) == "USER"
  {
  }
}
