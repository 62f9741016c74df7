/** The errors of the service: each one tells what is wrong, and where nothing is wrong nothing but ledger or database refuses. */
module OperationErrors {
  import opened CanonicalJson
  import opened Ledger
  import opened DrawMachine
  import opened ConfirmationCsv
  import opened Workflow
  import opened WorkflowAcceptance
  import opened ManifestCommitment
  import opened DualEntry

  /** Left to the ledger's and the database's own checks. */
  predicate AtStorage(e: Error) {
    e.LedgerRefused? || e == ConstraintViolated || e == ConcurrentChange
  }

  lemma SaveAnswers()
    ensures forall s: State, d: DrawRequest, next: DrawRequest :: SaveDraw(s, d, next).Err? ==> AtStorage(SaveDraw(s, d, next).error)
  {
    hide RowChecks, LocksKept;
  }

  lemma RoleAnswers(env: Env, subject: string, roles: seq<string>, scopes: seq<string>)
    ensures RequireRole(env, subject, roles, scopes) == Err(RoleRequired) <==> !MayAct(env, subject, roles, scopes)
    ensures RequireRole(env, subject, roles, scopes).Err? ==> RequireRole(env, subject, roles, scopes) == Err(RoleRequired)
  {
    RoleMeansGrant(env, subject, roles, scopes);
    OnlyRoleRequired(env, subject, roles, scopes);
    hide RequireRole, MayAct;
  }

  lemma {:induction false} OnlyRoleRequired(env: Env, subject: string, roles: seq<string>, scopes: seq<string>)
    ensures RequireRole(env, subject, roles, scopes).Err? ==> RequireRole(env, subject, roles, scopes) == Err(RoleRequired)
  {
    hide HoldsRole;
    if roles != [] { OnlyRoleRequired(env, subject, roles[1..], scopes); }
  }

  // a move without approval fails for its table or the ledger, a save for the database
  lemma MoveAnswers(cfg: Config, s: State, env: Env, d: DrawRequest, target: Status, subject: string, role: string, key: string, payload: Json)
    requires target != Approved
    ensures var r := TransitionDraw(cfg, s, env, (0, 1), d, target, subject, role, None, key, payload);
            && (r.Ok? ==> target in AllowedTransitions(d.status))
            && (r.Err? ==> r.error.LedgerRefused? || (r.error == InvalidTransition && target !in AllowedTransitions(d.status)))
  {
    hide AppendTo, MoveEvent, AllowedTransitions;
  }

  // ---------------------------------------------------------------------------
  // Drafts and evidence
  // ---------------------------------------------------------------------------

  ghost predicate CreateWrong(s: State, env: Env, subject: string, input: DraftInput, e: Error) {
    match e
    case InvalidMoney => ParseMinor(input.amountRequested) == None
    case SessionRequired => subject == ""
    case IdempotencyKeyRequired => input.idempotencyKey == ""
    case RoleRequired => !MayAct(env, subject, ["BorrowerSponsor", "OperationsOwner"], [input.dealId])
    case NotFound => input.dealId !in env.deals
    case CurrencyMismatch => input.dealId in env.deals && env.deals[input.dealId].currency != input.currency
    case ConstraintViolated =>
      || env.id(0, 0) in s.draws || ParseMinor(input.amountRequested) == Some(0)
      || (exists id :: id in s.draws && s.draws[id].requestNumber == input.requestNumber)
      || input.payeeCounterpartyId !in env.counterparties || input.payeeBankAccountId !in env.accounts
    case LedgerRefused(_) => true
    case _ => false
  }

  /** A creation under a new key fails only with a code for something wrong, and succeeds only if nothing is. */
  lemma CreateErrors(cfg: Config, s: State, env: Env, subject: string, input: DraftInput)
    requires !DrawWithKey(s.draws, input.idempotencyKey)
    ensures var r := CreateDraft(cfg, s, env, subject, input);
            if r.Ok? then forall e: Error :: !e.LedgerRefused? ==> !CreateWrong(s, env, subject, input, e) else CreateWrong(s, env, subject, input, r.error)
  {
    RoleAnswers(env, subject, ["BorrowerSponsor", "OperationsOwner"], [input.dealId]);
    hide AppendTo, RequireRole, ParseMinor, DrawWithKey, CreatedPayload, MayAct;
  }

  ghost predicate UploadWrong(cfg: Config, s: State, env: Env, subject: string, input: UploadInput, e: Error) {
    match e
    case EvidenceEmpty => input.content == ""
    case SessionRequired => subject == ""
    case IdempotencyKeyRequired => input.idempotencyKey == ""
    case NotFound => input.drawId !in s.draws
    case RoleRequired => input.drawId in s.draws && !MayAct(env, subject, ["BorrowerSponsor", "Inspector", "OperationsOwner"], [s.draws[input.drawId].dealId])
    case EvidenceFrozen => input.drawId in s.draws && s.draws[input.drawId].status != Draft
    case ConstraintViolated => (exists d :: d in s.documents && d.id == env.id(0, 0)) || input.documentType !in DOCUMENT_TYPES
    case LedgerRefused(_) => true
    case _ => false
  }

  lemma DocumentIdTaken(documents: seq<Document>, id: string)
    ensures DocumentExists(documents, id) <==> exists d :: d in documents && d.id == id
  {
    if d :| d in documents && d.id == id {
      var i :| 0 <= i < |documents| && documents[i] == d;
    }
  }

  /** So does an upload under a new key. */
  lemma UploadErrors(cfg: Config, s: State, env: Env, subject: string, input: UploadInput)
    requires !KeyUsed(s.chain.rows, input.idempotencyKey)
    ensures var r := UploadEvidence(cfg, s, env, subject, input);
            if r.Ok? then forall e: Error :: !e.LedgerRefused? ==> !UploadWrong(cfg, s, env, subject, input, e)
            else UploadWrong(cfg, s, env, subject, input, r.error)
  {
    hide Log, RequireRole, KeyUsed, HasContent, NewDocument, UploadedPayload, DOCUMENT_TYPES, DocumentExists, MayAct;
    if input.content != "" && subject != "" && input.idempotencyKey != "" && input.drawId in s.draws {
      var d := s.draws[input.drawId];
      var role, doc := RequireRole(env, subject, ["BorrowerSponsor", "Inspector", "OperationsOwner"], [d.dealId]), NewDocument(cfg, s, env, subject, d, input);
      RoleAnswers(env, subject, ["BorrowerSponsor", "Inspector", "OperationsOwner"], [d.dealId]);
      UploadTakes(cfg, s, env, subject, d, input);
      if role.Ok? && d.status == Draft {
        LogAnswers(cfg, s, env, PlainEvent(cfg, subject, role.value, if doc.supersedes.Some? then "EVIDENCE_SUPERSEDED" else "EVIDENCE_UPLOADED", "DRAW_REQUEST",
                                           d.id, input.idempotencyKey, UploadedPayload(doc)));
        hide PlainEvent;
      }
    }
  }

  lemma UploadTakes(cfg: Config, s: State, env: Env, subject: string, d: DrawRequest, input: UploadInput)
    ensures var doc := NewDocument(cfg, s, env, subject, d, input);
            && doc.documentType == input.documentType && (DocumentExists(s.documents, doc.id) <==> exists e :: e in s.documents && e.id == env.id(0, 0))
  {
    DocumentIdTaken(s.documents, env.id(0, 0));
    hide Latest, DocumentExists;
  }

  /** Under a used key an upload succeeds, changing nothing, if the draw has the content, and is not found otherwise. */
  lemma UploadReplays(cfg: Config, s: State, env: Env, subject: string, input: UploadInput)
    requires input.content != "" && subject != "" && input.idempotencyKey != "" && KeyUsed(s.chain.rows, input.idempotencyKey)
    ensures UploadEvidence(cfg, s, env, subject, input)
         == if exists d :: d in s.documents && d.drawId == input.drawId && d.contentHash == "sha256:" + cfg.sha(input.content) then Ok(s) else Err(NotFound)
  {
    ContentMeans(s.documents, input.drawId, Digest(cfg, input.content));
    hide Log, RequireRole, KeyUsed, HasContent, Latest, UploadedPayload, DOCUMENT_TYPES, DocumentExists;
  }

  lemma ContentMeans(documents: seq<Document>, drawId: string, hash: string)
    ensures HasContent(documents, drawId, hash) <==> exists d :: d in documents && d.drawId == drawId && d.contentHash == hash
  {
    if d :| d in documents && d.drawId == drawId && d.contentHash == hash {
      var i :| 0 <= i < |documents| && documents[i] == d;
    }
  }

  ghost predicate VerifyWrong(s: State, env: Env, subject: string, documentId: string, key: string, e: Error) {
    match e
    case SessionRequired => subject == ""
    case IdempotencyKeyRequired => key == ""
    case NotFound => forall d :: d in s.documents ==> d.id != documentId
    case RoleRequired => exists d :: d in s.documents && d.id == documentId && !MayAct(env, subject, ["OperationsOwner", "Inspector", "Underwriter", "RiskOwner"], [d.dealId])
    case UploaderCannotVerify => exists d :: d in s.documents && d.id == documentId && d.uploadedBy == subject
    case LedgerRefused(_) => true
    case _ => false
  }

  /** A verification fails only with a code for something wrong; under a used key it changes nothing. */
  lemma VerifyErrors(cfg: Config, s: State, env: Env, subject: string, documentId: string, key: string)
    ensures var r := VerifyEvidence(cfg, s, env, subject, documentId, key);
            if subject != "" && key != "" && KeyUsed(s.chain.rows, key) then r == Ok(s)
            else if r.Ok? then subject != "" && key != "" && DocumentExists(s.documents, documentId)
            else VerifyWrong(s, env, subject, documentId, key, r.error)
  {
    DocumentIdTaken(s.documents, documentId);
    var found := FindDocument(s.documents, documentId);
    hide Log, RequireRole, KeyUsed, FindDocument, VerifiedPayload, DocumentExists, MayAct;
    if found.Some? {
      var doc := s.documents[found.value];
      assert doc in s.documents && doc.id == documentId;
      RoleAnswers(env, subject, ["OperationsOwner", "Inspector", "Underwriter", "RiskOwner"], [doc.dealId]);
      var role := RequireRole(env, subject, ["OperationsOwner", "Inspector", "Underwriter", "RiskOwner"], [doc.dealId]);
      if role.Ok? {
        LogAnswers(cfg, s, env, PlainEvent(cfg, subject, role.value, "EVIDENCE_VERIFIED", "DRAW_REQUEST", doc.drawId, key,
                                           VerifiedPayload(documentId, doc.contentHash)));
      }
      hide PlainEvent;
    }
  }

  lemma LogAnswers(cfg: Config, s: State, env: Env, input: AppendInput)
    ensures Log(cfg, s, env, (0, 1), input).Err? ==> Log(cfg, s, env, (0, 1), input).error.LedgerRefused?
  {
    hide AppendTo;
  }

  // ---------------------------------------------------------------------------
  // Moves of a draw
  // ---------------------------------------------------------------------------

  ghost predicate SubmitWrong(cfg: Config, s: State, env: Env, subject: string, drawId: string, key: string, e: Error) {
    match e
    case SessionRequired => subject == ""
    case IdempotencyKeyRequired => key == ""
    case NotFound => drawId !in s.draws || s.draws[drawId].dealId !in env.deals
    case OnlyRequesterSubmits => drawId in s.draws && s.draws[drawId].requestedBy != subject
    case EvidenceRequired => forall d :: !ManifestCommitment.Current(s.documents, drawId, d)
    case PolicyVersionUnknown =>
      drawId in s.draws && s.draws[drawId].dealId in env.deals && env.deals[s.draws[drawId].dealId].policyVersion !in cfg.packs
    case InvalidTransition => drawId in s.draws && s.draws[drawId].status != Draft
    case _ => AtStorage(e)
  }

  lemma SubmitMoves(cfg: Config, s: State, env: Env, subject: string, drawId: string, key: string)
    requires drawId in s.draws && s.draws[drawId].dealId in env.deals
    ensures var d, documents := s.draws[drawId], CurrentDocuments(s.documents, drawId);
            var hash, version := ManifestHash(cfg, documents), env.deals[d.dealId].policyVersion;
            var r := TransitionDraw(cfg, s, env, (0, 1), d.(lockedPolicyVersion := Some(version), lockedManifestHash := Some(hash)), Submitted, subject, "Requester",
                                    None, key, SubmittedPayload(hash, version, documents));
            (r.Ok? ==> d.status == Draft) && (r.Err? ==> r.error.LedgerRefused? || (r.error == InvalidTransition && d.status != Draft))
  {
    var d, documents := s.draws[drawId], CurrentDocuments(s.documents, drawId);
    var hash, version := ManifestHash(cfg, documents), env.deals[d.dealId].policyVersion;
    SubmittedFrom(d.status);
    hide AllowedTransitions, TransitionDraw, ManifestHash, CurrentDocuments, SubmittedPayload;
    MoveAnswers(cfg, s, env, d.(lockedPolicyVersion := Some(version), lockedManifestHash := Some(hash)), Submitted, subject, "Requester", key,
                SubmittedPayload(hash, version, documents));
  }

  lemma SubmitRefused(cfg: Config, s: State, env: Env, subject: string, drawId: string, key: string)
    requires Submit(cfg, s, env, subject, drawId, key).Err?
    ensures SubmitWrong(cfg, s, env, subject, drawId, key, Submit(cfg, s, env, subject, drawId, key).error)
  {
    hide TransitionDraw, SaveDraw, KeyUsed, CurrentDocuments, ManifestCommitment.Current, ManifestHash, SubmittedPayload, Ids, AllowedTransitions;
    var documents := CurrentDocuments(s.documents, drawId);
    if subject == "" || key == "" || drawId !in s.draws || s.draws[drawId].requestedBy != subject {
    } else if documents == [] {
      NothingCurrent(s.documents, drawId);
    } else if s.draws[drawId].dealId in env.deals && env.deals[s.draws[drawId].dealId].policyVersion in cfg.packs {
      var d, hash, version := s.draws[drawId], ManifestHash(cfg, documents), env.deals[s.draws[drawId].dealId].policyVersion;
      SubmitMoves(cfg, s, env, subject, drawId, key);
      SaveAnswers();
      var moved := TransitionDraw(cfg, s, env, (0, 1), d.(lockedPolicyVersion := Some(version), lockedManifestHash := Some(hash)), Submitted, subject, "Requester",
                                  None, key, SubmittedPayload(hash, version, documents));
      if moved.Ok? && drawId !in moved.value.0.manifests {
        var saved := SaveDraw(moved.value.0.(manifests := moved.value.0.manifests[drawId := Manifest(Ids(documents), hash)]), d, moved.value.1);
        assert KeyUsed(s.chain.rows, key) || Submit(cfg, s, env, subject, drawId, key) == saved;
      } else if moved.Err? {
        assert KeyUsed(s.chain.rows, key) || Submit(cfg, s, env, subject, drawId, key) == Err(moved.error);
      }
    }
  }

  lemma SubmitGranted(cfg: Config, s: State, env: Env, subject: string, drawId: string, key: string)
    requires Submit(cfg, s, env, subject, drawId, key).Ok?
    ensures subject != "" && key != "" && drawId in s.draws
    ensures KeyUsed(s.chain.rows, key) ==> Submit(cfg, s, env, subject, drawId, key).value == s
    ensures !KeyUsed(s.chain.rows, key) ==>
              && s.draws[drawId].requestedBy == subject && CurrentDocuments(s.documents, drawId) != [] && s.draws[drawId].dealId in env.deals
              && env.deals[s.draws[drawId].dealId].policyVersion in cfg.packs && s.draws[drawId].status == Draft
  {
    if drawId in s.draws && s.draws[drawId].dealId in env.deals { SubmitMoves(cfg, s, env, subject, drawId, key); }
    hide TransitionDraw, SaveDraw, KeyUsed, CurrentDocuments, ManifestHash, SubmittedPayload, Ids;
  }

  /** A submission fails only with a code for something wrong; under a new key it succeeds only if nothing is, under a used one it changes nothing. */
  lemma SubmitErrors(cfg: Config, s: State, env: Env, subject: string, drawId: string, key: string)
    ensures var r := Submit(cfg, s, env, subject, drawId, key);
            if r.Err? then SubmitWrong(cfg, s, env, subject, drawId, key, r.error)
            else if KeyUsed(s.chain.rows, key) then r == Ok(s)
            else forall e: Error :: !AtStorage(e) ==> !SubmitWrong(cfg, s, env, subject, drawId, key, e)
  {
    NothingCurrent(s.documents, drawId);
    hide Submit, KeyUsed, CurrentDocuments, ManifestCommitment.Current;
    if Submit(cfg, s, env, subject, drawId, key).Ok? {
      SubmitGranted(cfg, s, env, subject, drawId, key);
    } else {
      SubmitRefused(cfg, s, env, subject, drawId, key);
    }
  }

  lemma NothingCurrent(documents: seq<Document>, drawId: string)
    ensures CurrentDocuments(documents, drawId) == [] <==> forall d :: !ManifestCommitment.Current(documents, drawId, d)
  {
    var r := CurrentDocuments(documents, drawId);
    if r != [] {
      CurrentDocumentsAre(documents, drawId, r[0]);
      assert r[0] in r;
    } else {
      forall d ensures !ManifestCommitment.Current(documents, drawId, d) { CurrentDocumentsAre(documents, drawId, d); }
    }
  }

  lemma SubmittedFrom(status: Status)
    ensures Submitted in AllowedTransitions(status) <==> status == Draft
  {
  }

  ghost predicate EvaluateWrong(cfg: Config, s: State, env: Env, subject: string, drawId: string, key: string, e: Error) {
    match e
    case SessionRequired => subject == ""
    case IdempotencyKeyRequired => key == ""
    case NotFound => drawId !in s.draws
    case RoleRequired => drawId in s.draws && !MayAct(env, subject, ["OperationsOwner", "RiskOwner", "Underwriter", "LenderAdmin"], [s.draws[drawId].dealId])
    case PolicyVersionUnknown => drawId in s.draws && (s.draws[drawId].lockedPolicyVersion == None || s.draws[drawId].lockedPolicyVersion.value !in cfg.packs)
    case InvalidTransition => drawId in s.draws && UnderReview !in AllowedTransitions(s.draws[drawId].status)
    case _ => AtStorage(e)
  }

  lemma EvaluateMoves(cfg: Config, s: State, env: Env, subject: string, role: string, drawId: string, key: string, payload: Json)
    requires drawId in s.draws
    ensures var r := TransitionDraw(cfg, s, env, (0, 1), s.draws[drawId], UnderReview, subject, role, None, key, payload);
            && (r.Ok? ==> UnderReview in AllowedTransitions(s.draws[drawId].status))
            && (r.Err? ==> r.error.LedgerRefused? || (r.error == InvalidTransition && UnderReview !in AllowedTransitions(s.draws[drawId].status)))
  {
    hide AllowedTransitions, TransitionDraw;
    MoveAnswers(cfg, s, env, s.draws[drawId], UnderReview, subject, role, key, payload);
  }

  lemma EvaluateRefused(cfg: Config, s: State, env: Env, subject: string, drawId: string, key: string)
    requires Evaluate(cfg, s, env, subject, drawId, key).Err?
    ensures EvaluateWrong(cfg, s, env, subject, drawId, key, Evaluate(cfg, s, env, subject, drawId, key).error)
  {
    hide TransitionDraw, SaveDraw, KeyUsed, RequireRole, EvaluatedPayload, ManifestComplete, AllowedTransitions, MayAct;
    if subject != "" && key != "" && drawId in s.draws && !KeyUsed(s.chain.rows, key) {
      var d, id := s.draws[drawId], env.id(0, 0);
      var role, pack := RequireRole(env, subject, ["OperationsOwner", "RiskOwner", "Underwriter", "LenderAdmin"], [d.dealId]), PackOf(cfg, d.lockedPolicyVersion);
      RoleAnswers(env, subject, ["OperationsOwner", "RiskOwner", "Underwriter", "LenderAdmin"], [d.dealId]);
      if role.Ok? && pack.Ok? {
        EvaluateMoves(cfg, s, env, subject, role.value, drawId, key, EvaluatedPayload(s, drawId, id, pack.value));
        SaveAnswers();
        var moved := TransitionDraw(cfg, s, env, (0, 1), d, UnderReview, subject, role.value, None, key, EvaluatedPayload(s, drawId, id, pack.value));
        if moved.Err? {
          assert Evaluate(cfg, s, env, subject, drawId, key) == Err(moved.error);
        } else if id !in moved.value.0.evaluations {
          var evaluation := Evaluation(drawId, d.lockedPolicyVersion.value, d.lockedManifestHash, ManifestComplete(s, drawId, pack.value));
          assert Evaluate(cfg, s, env, subject, drawId, key)
              == SaveDraw(moved.value.0.(evaluations := moved.value.0.evaluations[id := evaluation]), d, moved.value.1.(policyEvaluationId := Some(id)));
        }
      }
    }
  }

  lemma EvaluateGranted(cfg: Config, s: State, env: Env, subject: string, drawId: string, key: string)
    requires Evaluate(cfg, s, env, subject, drawId, key).Ok?
    ensures subject != "" && key != "" && drawId in s.draws
    ensures KeyUsed(s.chain.rows, key) ==> Evaluate(cfg, s, env, subject, drawId, key).value == s
    ensures !KeyUsed(s.chain.rows, key) ==>
              && MayAct(env, subject, ["OperationsOwner", "RiskOwner", "Underwriter", "LenderAdmin"], [s.draws[drawId].dealId])
              && PackOf(cfg, s.draws[drawId].lockedPolicyVersion).Ok? && UnderReview in AllowedTransitions(s.draws[drawId].status)
  {
    if drawId in s.draws {
      var d := s.draws[drawId];
      var role, pack := RequireRole(env, subject, ["OperationsOwner", "RiskOwner", "Underwriter", "LenderAdmin"], [d.dealId]), PackOf(cfg, d.lockedPolicyVersion);
      RoleAnswers(env, subject, ["OperationsOwner", "RiskOwner", "Underwriter", "LenderAdmin"], [d.dealId]);
      if role.Ok? && pack.Ok? { EvaluateMoves(cfg, s, env, subject, role.value, drawId, key, EvaluatedPayload(s, drawId, env.id(0, 0), pack.value)); }
    }
    hide TransitionDraw, SaveDraw, KeyUsed, RequireRole, EvaluatedPayload, ManifestComplete, AllowedTransitions, MayAct, PackOf;
  }

  /** An evaluation fails only with a code for something wrong; under a new key it succeeds only if nothing is, under a used one it changes nothing. */
  lemma EvaluateErrors(cfg: Config, s: State, env: Env, subject: string, drawId: string, key: string)
    ensures var r := Evaluate(cfg, s, env, subject, drawId, key);
            if r.Err? then EvaluateWrong(cfg, s, env, subject, drawId, key, r.error)
            else if KeyUsed(s.chain.rows, key) then r == Ok(s)
            else forall e: Error :: !AtStorage(e) ==> !EvaluateWrong(cfg, s, env, subject, drawId, key, e)
  {
    hide Evaluate, KeyUsed, AllowedTransitions, MayAct;
    if Evaluate(cfg, s, env, subject, drawId, key).Ok? {
      EvaluateGranted(cfg, s, env, subject, drawId, key);
    } else {
      EvaluateRefused(cfg, s, env, subject, drawId, key);
    }
  }

  ghost predicate ApproveWrong(cfg: Config, s: State, env: Env, subject: string, input: ApproveInput, e: Error) {
    var known := input.drawId in s.draws;
    match e
    case InvalidMoney => ParseMinor(input.amountApproved) == None || ParseMinor(input.controls.remainingBudget) == None || ParseMinor(input.controls.eligibleThisDraw) == None
    case SessionRequired => subject == ""
    case IdempotencyKeyRequired => input.idempotencyKey == ""
    case NotFound => !known
    case InvalidState => known && s.draws[input.drawId].status != UnderReview
    case PolicyVersionUnknown => known && (s.draws[input.drawId].lockedPolicyVersion == None || s.draws[input.drawId].lockedPolicyVersion.value !in cfg.packs)
    case RoleRequired =>
      known && s.draws[input.drawId].lockedPolicyVersion != None && s.draws[input.drawId].lockedPolicyVersion.value in cfg.packs
      && !MayAct(env, subject, cfg.packs[s.draws[input.drawId].lockedPolicyVersion.value].approverRoles, [s.draws[input.drawId].dealId, s.draws[input.drawId].spvId])
    case ApprovalBlocked => known && !Grounded(cfg, s, env, subject, input)
    case _ => AtStorage(e)
  }

  /** All grounds of the approval are given. */
  ghost predicate Grounded(cfg: Config, s: State, env: Env, subject: string, input: ApproveInput)
    requires input.drawId in s.draws
  {
    var d := s.draws[input.drawId];
    && ParseMinor(input.amountApproved).Some? && ParseMinor(input.controls.remainingBudget).Some? && ParseMinor(input.controls.eligibleThisDraw).Some?
    && d.lockedPolicyVersion.Some? && d.lockedPolicyVersion.value in cfg.packs
    && ApprovalGrounds(s, env, subject, d, cfg.packs[d.lockedPolicyVersion.value], BindingHash(cfg, d, ParseMinor(input.amountApproved).value),
                       ParseMinor(input.controls.remainingBudget).value, ParseMinor(input.controls.eligibleThisDraw).value, input.controls,
                       ParseMinor(input.amountApproved).value)
  }

  /** An approval fails only with a code for something wrong, and under a new key it succeeds only if nothing is. */
  lemma ApproveErrors(cfg: Config, s: State, env: Env, subject: string, input: ApproveInput)
    ensures var r := Approve(cfg, s, env, subject, input);
            && (r.Err? ==> ApproveWrong(cfg, s, env, subject, input, r.error))
            && (r.Ok? && KeyUsed(s.chain.rows, input.idempotencyKey) ==> r == Ok(s))
            && (r.Ok? && !KeyUsed(s.chain.rows, input.idempotencyKey) ==> forall e: Error :: !AtStorage(e) ==> !ApproveWrong(cfg, s, env, subject, input, e))
  {
    hide Approve, KeyUsed, ParseMinor, MayAct, ApprovalGrounds, BindingHash;
    var r := Approve(cfg, s, env, subject, input);
    if !Checked(cfg, s, env, subject, input) {
      UncheckedTells(cfg, s, env, subject, input);
    } else {
      CheckedEnds(cfg, s, env, subject, input);
      BlockedExactlyWithoutGrounds(cfg, s, env, subject, input);
    }
  }

  /** Everything an approval is checked for before its rules. */
  ghost predicate Checked(cfg: Config, s: State, env: Env, subject: string, input: ApproveInput) {
    && subject != "" && input.idempotencyKey != "" && !KeyUsed(s.chain.rows, input.idempotencyKey)
    && input.drawId in s.draws && s.draws[input.drawId].status == UnderReview && PackOf(cfg, s.draws[input.drawId].lockedPolicyVersion).Ok?
    && ParseMinor(input.amountApproved).Some? && ParseMinor(input.controls.remainingBudget).Some? && ParseMinor(input.controls.eligibleThisDraw).Some?
    && MayAct(env, subject, PackOf(cfg, s.draws[input.drawId].lockedPolicyVersion).value.approverRoles,
              [s.draws[input.drawId].dealId, s.draws[input.drawId].spvId])
  }

  lemma UncheckedTells(cfg: Config, s: State, env: Env, subject: string, input: ApproveInput)
    requires !Checked(cfg, s, env, subject, input)
    ensures var r := Approve(cfg, s, env, subject, input);
            if r.Err? then r.error != ApprovalBlocked && ApproveWrong(cfg, s, env, subject, input, r.error)
            else r.value == s && KeyUsed(s.chain.rows, input.idempotencyKey)
  {
    hide KeyUsed, RequireRole, DecisionPayload, Blocks, ContextOf, BindingHash, ParseMinor, MayAct, TransitionDraw, SaveDraw, Log, DecisionAllowed, Grounded;
    if input.drawId in s.draws && PackOf(cfg, s.draws[input.drawId].lockedPolicyVersion).Ok? {
      var d := s.draws[input.drawId];
      RoleAnswers(env, subject, PackOf(cfg, d.lockedPolicyVersion).value.approverRoles, [d.dealId, d.spvId]);
    }
  }

  lemma ApprovalMoveAnswers(cfg: Config, s: State, env: Env, d: DrawRequest, subject: string, role: string, ctx: ApprovalContext, key: string, payload: Json)
    requires d.status == UnderReview
    ensures var r := TransitionDraw(cfg, s, env, (0, 1), d, Approved, subject, role, Some(ctx), key, payload);
            r.Err? ==> r.error == ApprovalBlocked || r.error.LedgerRefused?
  {
    ApprovedFromReview();
    hide AppendTo, MoveEvent, AllowedTransitions, Blocks;
  }

  lemma ApproveUnfolds(cfg: Config, s: State, env: Env, subject: string, input: ApproveInput, role: string, ctx: ApprovalContext, payload: Json, decision: Decision)
    requires Checked(cfg, s, env, subject, input)
    requires var d, amount := s.draws[input.drawId], ParseMinor(input.amountApproved).value;
             var pack, hash := PackOf(cfg, d.lockedPolicyVersion).value, BindingHash(cfg, d, amount);
             && RequireRole(env, subject, pack.approverRoles, [d.dealId, d.spvId]) == Ok(role)
             && ctx == ContextOf(s, env, subject, d, pack, hash, ParseMinor(input.controls.remainingBudget).value,
                                 ParseMinor(input.controls.eligibleThisDraw).value, input.controls)
             && payload == DecisionPayload(hash, amount, input.controls)
             && decision == Decision(d.id, subject, role, d.lockedPolicyVersion, d.lockedManifestHash, hash, input.idempotencyKey)
    ensures var d, amount, r := s.draws[input.drawId], ParseMinor(input.amountApproved).value, Approve(cfg, s, env, subject, input);
            var candidate := d.(amountApproved := Some(amount), approvalBindingHash := Some(BindingHash(cfg, d, amount)));
            var logged := Log(cfg, s, env, (0, 1), PlainEvent(cfg, subject, role, "APPROVAL_RECORDED", "DRAW_REQUEST", d.id, input.idempotencyKey, payload)
                                                     .(policyVersion := TextOr(d.lockedPolicyVersion), evidenceManifestHash := TextOr(d.lockedManifestHash)));
            var moved := TransitionDraw(cfg, s, env, (0, 1), candidate, Approved, subject, role, Some(ctx), input.idempotencyKey, payload);
            || r == Err(ApprovalBlocked)
            || (logged.Err? && r == Err(logged.error)) || (logged.Ok? && r == InsertDecision(logged.value, env, d, decision))
            || (moved.Err? && r == Err(moved.error)) || (moved.Ok? && r == InsertDecision(moved.value.0, env, d, decision))
            || (moved.Ok? && InsertDecision(moved.value.0, env, d, decision).Ok?
                && r == SaveDraw(InsertDecision(moved.value.0, env, d, decision).value, d, moved.value.1))
  {
    hide KeyUsed, RequireRole, DecisionPayload, Blocks, ContextOf, BindingHash, ParseMinor, MayAct, TransitionDraw, SaveDraw, Log, InsertDecision, PackOf, PlainEvent;
  }

  lemma InsertAnswers()
    ensures forall s: State, env: Env, d: DrawRequest, decision: Decision ::
      InsertDecision(s, env, d, decision).Err? ==> AtStorage(InsertDecision(s, env, d, decision).error)
  {
    hide DecisionAllowed;
  }

  lemma CheckedEnds(cfg: Config, s: State, env: Env, subject: string, input: ApproveInput)
    requires Checked(cfg, s, env, subject, input)
    ensures var r := Approve(cfg, s, env, subject, input);
            r.Err? ==> r.error == ApprovalBlocked || AtStorage(r.error)
  {
    var d, amount := s.draws[input.drawId], ParseMinor(input.amountApproved).value;
    var pack, hash := PackOf(cfg, d.lockedPolicyVersion).value, BindingHash(cfg, d, amount);
    RoleAnswers(env, subject, pack.approverRoles, [d.dealId, d.spvId]);
    hide Approve, KeyUsed, RequireRole, DecisionPayload, ContextOf, BindingHash, ParseMinor, MayAct, TransitionDraw, SaveDraw, Log, InsertDecision, PackOf, PlainEvent;
    var role := RequireRole(env, subject, pack.approverRoles, [d.dealId, d.spvId]).value;
    var candidate := d.(amountApproved := Some(amount), approvalBindingHash := Some(hash));
    var ctx := ContextOf(s, env, subject, d, pack, hash, ParseMinor(input.controls.remainingBudget).value, ParseMinor(input.controls.eligibleThisDraw).value, input.controls);
    var payload := DecisionPayload(hash, amount, input.controls);
    var decision := Decision(d.id, subject, role, d.lockedPolicyVersion, d.lockedManifestHash, hash, input.idempotencyKey);
    ApproveUnfolds(cfg, s, env, subject, input, role, ctx, payload, decision);
    LogAnswers(cfg, s, env, PlainEvent(cfg, subject, role, "APPROVAL_RECORDED", "DRAW_REQUEST", d.id, input.idempotencyKey, payload)
                              .(policyVersion := TextOr(d.lockedPolicyVersion), evidenceManifestHash := TextOr(d.lockedManifestHash)));
    ApprovalMoveAnswers(cfg, s, env, candidate, subject, role, ctx, input.idempotencyKey, payload);
    SaveAnswers();
    InsertAnswers();
  }

  lemma ApprovedFromReview()
    ensures Approved in AllowedTransitions(UnderReview)
  {
  }

  ghost predicate InstructWrong(s: State, env: Env, subject: string, input: InstructInput, e: Error) {
    var known := input.drawId in s.draws;
    match e
    case SessionRequired => subject == ""
    case IdempotencyKeyRequired => input.idempotencyKey == ""
    case NotFound => !known
    case RoleRequired => known && !MayAct(env, subject, ["TreasuryOwner"], [s.draws[input.drawId].dealId, s.draws[input.drawId].spvId])
    case RequesterCannotInstruct => known && s.draws[input.drawId].requestedBy == subject
    case ApproverCannotInstruct => known && exists decision :: decision in s.decisions && decision.drawId == s.draws[input.drawId].id && decision.approver == subject
    case InvalidTransition => known && SettlementInstructed !in AllowedTransitions(s.draws[input.drawId].status)
    case _ => AtStorage(e)
  }

  lemma DecidedMeans(decisions: seq<Decision>, drawId: string, approver: string)
    ensures Decided(decisions, drawId, approver) <==> exists decision :: decision in decisions && decision.drawId == drawId && decision.approver == approver
  {
    if decision :| decision in decisions && decision.drawId == drawId && decision.approver == approver {
      var i :| 0 <= i < |decisions| && decisions[i] == decision;
    }
  }

  lemma InstructMoves(cfg: Config, s: State, env: Env, subject: string, role: string, d: DrawRequest, key: string, payload: Json)
    ensures var r := TransitionDraw(cfg, s, env, (0, 1), d, SettlementInstructed, subject, role, None, key, payload);
            && (r.Ok? ==> SettlementInstructed in AllowedTransitions(d.status))
            && (r.Err? ==> r.error.LedgerRefused? || (r.error == InvalidTransition && SettlementInstructed !in AllowedTransitions(d.status)))
  {
    hide AllowedTransitions, TransitionDraw;
    MoveAnswers(cfg, s, env, d, SettlementInstructed, subject, role, key, payload);
  }

  lemma InstructRefused(cfg: Config, s: State, env: Env, subject: string, input: InstructInput)
    requires Instruct(cfg, s, env, subject, input).Err?
    ensures InstructWrong(s, env, subject, input, Instruct(cfg, s, env, subject, input).error)
  {
    hide TransitionDraw, SaveDraw, KeyUsed, RequireRole, InstructedPayload, InstructionAllowed, Decided, AllowedTransitions, MayAct;
    if subject != "" && input.idempotencyKey != "" && input.drawId in s.draws && !KeyUsed(s.chain.rows, input.idempotencyKey) {
      var d, r := s.draws[input.drawId], Instruct(cfg, s, env, subject, input);
      var role := RequireRole(env, subject, ["TreasuryOwner"], [d.dealId, d.spvId]);
      RoleAnswers(env, subject, ["TreasuryOwner"], [d.dealId, d.spvId]);
      if role.Ok? && subject != d.requestedBy {
        DecidedMeans(s.decisions, d.id, subject);
        if !Decided(s.decisions, d.id, subject) {
          InstructMoves(cfg, s, env, subject, role.value, d, input.idempotencyKey, InstructedPayload(d, input));
          SaveAnswers();
          var moved := TransitionDraw(cfg, s, env, (0, 1), d, SettlementInstructed, subject, role.value, None, input.idempotencyKey, InstructedPayload(d, input));
          if moved.Err? {
            assert r == Err(moved.error);
          } else if d.amountApproved.Some? {
            var instruction := Instruction(env.id(0, 0), d.id, subject, d.amountApproved.value, d.currency, d.payeeBankAccountId,
                                           d.lockedPolicyVersion, d.lockedManifestHash, d.approvalBindingHash, Sent, env.now, input.idempotencyKey);
            var k := (input.externalPartnerId, input.settlementReference);
            assert r == Err(ConstraintViolated)
                || r == SaveDraw(moved.value.0.(instructions := moved.value.0.instructions[k := instruction]), d, moved.value.1);
          }
        }
      }
    }
  }

  lemma InstructGranted(cfg: Config, s: State, env: Env, subject: string, input: InstructInput)
    requires Instruct(cfg, s, env, subject, input).Ok?
    ensures subject != "" && input.idempotencyKey != "" && input.drawId in s.draws
    ensures KeyUsed(s.chain.rows, input.idempotencyKey) ==> Instruct(cfg, s, env, subject, input).value == s
    ensures var d := s.draws[input.drawId];
            !KeyUsed(s.chain.rows, input.idempotencyKey) ==>
              && MayAct(env, subject, ["TreasuryOwner"], [d.dealId, d.spvId]) && subject != d.requestedBy && !Decided(s.decisions, d.id, subject)
              && SettlementInstructed in AllowedTransitions(d.status)
  {
    if input.drawId in s.draws {
      var d := s.draws[input.drawId];
      var role := RequireRole(env, subject, ["TreasuryOwner"], [d.dealId, d.spvId]);
      RoleAnswers(env, subject, ["TreasuryOwner"], [d.dealId, d.spvId]);
      if role.Ok? { InstructMoves(cfg, s, env, subject, role.value, d, input.idempotencyKey, InstructedPayload(d, input)); }
    }
    hide TransitionDraw, SaveDraw, KeyUsed, RequireRole, InstructedPayload, InstructionAllowed, Decided, AllowedTransitions, MayAct;
  }

  /** An instruction fails only with a code for something wrong; under a new key it succeeds only if nothing is, under a used one it changes nothing. */
  lemma InstructErrors(cfg: Config, s: State, env: Env, subject: string, input: InstructInput)
    ensures var r := Instruct(cfg, s, env, subject, input);
            if r.Err? then InstructWrong(s, env, subject, input, r.error)
            else if KeyUsed(s.chain.rows, input.idempotencyKey) then r == Ok(s)
            else forall e: Error :: !AtStorage(e) ==> !InstructWrong(s, env, subject, input, e)
  {
    hide Instruct, KeyUsed, AllowedTransitions, MayAct, Decided;
    if Instruct(cfg, s, env, subject, input).Ok? {
      InstructGranted(cfg, s, env, subject, input);
      DecidedMeans(s.decisions, s.draws[input.drawId].id, subject);
    } else {
      InstructRefused(cfg, s, env, subject, input);
    }
  }

  // ---------------------------------------------------------------------------
  // Batches
  // ---------------------------------------------------------------------------

  ghost predicate StageWrong(cfg: Config, s: State, env: Env, subject: string, batchKey: string, csv: string, e: Error) {
    match e
    case CsvInvalid => ParseConfirmationCsv(csv) == None
    case SessionRequired => subject == ""
    case IdempotencyKeyRequired => batchKey == ""
    case BatchAlreadyStaged => batchKey in s.batches && (s.batches[batchKey].subject != subject || s.batches[batchKey].hash != "sha256:" + cfg.sha(csv))
    case RoleRequired => batchKey !in s.batches && !MayAct(env, subject, ENTRY_ROLES, [])
    case LedgerRefused(_) => true
    case _ => false
  }

  /** A staging fails only with a code for something wrong, and succeeds only if nothing is; staging the same entry again changes nothing. */
  lemma StageErrors(cfg: Config, s: State, env: Env, subject: string, batchKey: string, csv: string)
    ensures var r := StageCsv(cfg, s, env, subject, batchKey, csv);
            && (if r.Ok? then forall e: Error :: !e.LedgerRefused? ==> !StageWrong(cfg, s, env, subject, batchKey, csv, e)
                else StageWrong(cfg, s, env, subject, batchKey, csv, r.error))
            && (r.Ok? && batchKey in s.batches ==> r == Ok(s))
  {
    RoleAnswers(env, subject, CSV_ENTRY_ROLES, []);
    hide AppendTo, RequireRole, ParseConfirmationCsv, StagedPayload, MayAct;
  }

  ghost predicate ImportWrong(s: State, env: Env, entrant: string, confirmer: string, batchKey: string, first: string, second: string, e: Error) {
    match e
    case DualEntrySamePerson => entrant == confirmer
    case CsvInvalid => ParseConfirmationCsv(first) == None || ParseConfirmationCsv(second) == None
    case DualEntryMismatch => ParseConfirmationCsv(first) != ParseConfirmationCsv(second)
    case SessionRequired => entrant == ""
    case IdempotencyKeyRequired => batchKey == ""
    case BatchAlreadyImported => exists row :: row in s.chain.rows && row.envelope.idempotencyKey == batchKey
    case RoleRequired => !MayAct(env, entrant, ENTRY_ROLES, []) || !MayAct(env, confirmer, ENTRY_ROLES, [])
    case _ => AtStorage(e) || e == NotFound || e == InvalidTransition || e == ApprovalBlocked
  }

  lemma {:induction false} RowErrors(cfg: Config, s: State, env: Env, ic: ImportContext, rows: seq<CsvRow>)
    ensures var r := ImportRows(cfg, s, env, ic, rows);
            r.Err? ==> AtStorage(r.error) || r.error == NotFound || r.error == InvalidTransition || r.error == ApprovalBlocked
  {
    if rows != [] {
      RowErrors(cfg, s, env, ic, rows[..|rows| - 1]);
      var before := ImportRows(cfg, s, env, ic, rows[..|rows| - 1]);
      if before.Ok? { RowError(cfg, before.value.0, env, ic.(index := |rows| - 1), rows[|rows| - 1]); }
      hide ImportRow;
    }
  }

  lemma RowError(cfg: Config, s: State, env: Env, ic: ImportContext, row: CsvRow)
    ensures var r := ImportRow(cfg, s, env, ic, row);
            r.Err? ==> AtStorage(r.error) || r.error == NotFound || r.error == InvalidTransition || r.error == ApprovalBlocked
  {
    hide AppendTo, BreakEvent, NewConfirmation, ConfirmationExists, CalendarDate, AllowedTransitions, Blocks, MoveEvent, RowChecks, LocksKept, RowKey,
         Mismatches, MatchGuard, ReferenceConfirmed, ConfirmedPayload, ReconciledPayload, ExceptionPayload;
  }

  /** Before its rows are looked at, an import fails only with a code for something wrong with it, and none of that is wrong where it succeeds. */
  lemma ImportErrors(cfg: Config, s: State, env: Env, entrant: string, confirmer: string, batchKey: string, first: string, second: string)
    ensures var r := ImportCsv(cfg, s, env, entrant, confirmer, batchKey, first, second);
            if r.Ok? then forall e: Error :: !AtStorage(e) && e != NotFound && e != InvalidTransition && e != ApprovalBlocked ==>
                            !ImportWrong(s, env, entrant, confirmer, batchKey, first, second, e)
            else ImportWrong(s, env, entrant, confirmer, batchKey, first, second, r.error)
  {
    RoleAnswers(env, entrant, CSV_ENTRY_ROLES, []);
    RoleAnswers(env, confirmer, CSV_ENTRY_ROLES, []);
    hide AppendTo, RequireRole, ImportRows, ImportedPayload, ParseConfirmationCsv, AuditText, RowsJson, MayAct;
    match (ParseConfirmationCsv(first), ParseConfirmationCsv(second))
    case (Some(a), Some(b)) =>
      EntriesCompare(a, b);
      var role := RequireRole(env, entrant, CSV_ENTRY_ROLES, []);
      if role.Ok? {
        var logged := Log(cfg, s, env, (|a|, 1), PlainEvent(cfg, entrant, role.value, "CSV_BATCH_IMPORTED", "SETTLEMENT_CONFIRMATION", batchKey, batchKey,
                                                            ImportedPayload(a, confirmer)));
        if logged.Ok? { RowErrors(cfg, logged.value, env, ImportContext(entrant, confirmer, role.value, batchKey, 0), a); }
      }
    case _ =>
  }
}
