/** What an accepted operation proves about its caller and its surroundings. */
module WorkflowAcceptance {
  import opened Ordering
  import opened Decimal
  import opened CanonicalJson
  import opened Ledger
  import opened DrawMachine
  import opened ConfirmationCsv
  import opened Workflow
  import opened WorkflowChanges
  import opened WorkflowRuns
  import opened WorkflowHistory

  /** A role is granted exactly if the subject holds one of the allowed ones in scope, and then it is the first of those. */
  lemma {:induction false} RoleGranted(env: Env, subject: string, allowed: seq<string>, scopes: seq<string>)
    ensures RequireRole(env, subject, allowed, scopes).Ok? <==> exists i :: 0 <= i < |allowed| && HoldsRole(env, subject, allowed[i], scopes)
    ensures RequireRole(env, subject, allowed, scopes).Ok? ==>
              exists i :: 0 <= i < |allowed| && RequireRole(env, subject, allowed, scopes).value == allowed[i]
                          && HoldsRole(env, subject, allowed[i], scopes)
                          && forall j :: 0 <= j < i ==> !HoldsRole(env, subject, allowed[j], scopes)
  {
    hide HoldsRole;
    if allowed != [] && !HoldsRole(env, subject, allowed[0], scopes) {
      RoleGranted(env, subject, allowed[1..], scopes);
      if RequireRole(env, subject, allowed, scopes).Ok? {
        var i :| 0 <= i < |allowed[1..]| && RequireRole(env, subject, allowed[1..], scopes).value == allowed[1..][i]
                 && HoldsRole(env, subject, allowed[1..][i], scopes)
                 && forall j :: 0 <= j < i ==> !HoldsRole(env, subject, allowed[1..][j], scopes);
        assert allowed[i + 1] == allowed[1..][i];
        assert forall j :: 1 <= j < i + 1 ==> allowed[j] == allowed[1..][j - 1];
      }
      if k :| 0 <= k < |allowed| && HoldsRole(env, subject, allowed[k], scopes) {
        assert allowed[1..][k - 1] == allowed[k];
      }
    }
  }

  /** Some grant lets the person act in one of these roles, tenant-wide or on one of the scopes. */
  ghost predicate MayAct(env: Env, subject: string, roles: seq<string>, scopes: seq<string>) {
    exists g :: g in env.grants && g.subject == subject && g.role in roles && (g.scope == None || g.scope.value in scopes)
  }

  /** None of the person's grants is a service account's. */
  ghost predicate IsPerson(env: Env, subject: string) {
    forall g :: g in env.grants && g.subject == subject ==> !g.isServiceAccount
  }

  /** The payee's account is verified, past its cooling period, and none of the five holds is open. */
  ghost predicate PayeeReady(env: Env, d: DrawRequest) {
    && d.payeeBankAccountId in env.accounts
    && env.accounts[d.payeeBankAccountId].verified
    && (env.accounts[d.payeeBankAccountId].coolingEndsAt == None || env.clock >= env.accounts[d.payeeBankAccountId].coolingEndsAt.value)
    && env.openHolds * {TenantHold, DrawHold(d.id), DealHold(d.dealId), SpvHold(d.spvId), CounterpartyHold(d.payeeCounterpartyId)} == {}
  }

  /** The payee is clear of sanctions, by a screening no older than the pack allows. */
  ghost predicate PayeeCleared(env: Env, d: DrawRequest, maxAge: int) {
    && d.payeeCounterpartyId in env.counterparties
    && env.counterparties[d.payeeCounterpartyId].clear
    && env.counterparties[d.payeeCounterpartyId].screenedAt != None
    && env.clock - env.counterparties[d.payeeCounterpartyId].screenedAt.value < maxAge
  }

  /** What the approver stated allows the amount. */
  ghost predicate ControlsAllow(d: DrawRequest, amount: int, remaining: int, eligible: int, c: Controls) {
    && amount <= d.amountRequested && amount <= remaining && amount <= eligible && c.retainageApplied
    && (c.covenantStatus == Current || c.covenantStatus == Watch || c.waiverCoversBreach)
    && (c.loanInBalancePasses || c.deficiencyDepositConfirmed)
  }

  /** `doc` is one of the documents frozen for the draw. */
  ghost predicate Frozen(s: State, drawId: string, doc: Document) {
    doc in s.documents && drawId in s.manifests && doc.id in s.manifests[drawId].documentIds
  }

  /** The frozen evidence has every required type and is verified, and manifest and evaluation are of the locked hash and policy. */
  ghost predicate EvidenceStands(s: State, d: DrawRequest, pack: PolicyPack) {
    && (forall t :: t in pack.requiredEvidence ==> exists doc :: Frozen(s, d.id, doc) && doc.documentType == t)
    && (forall doc :: Frozen(s, d.id, doc) ==> doc.verified)
    && d.id in s.manifests && d.lockedManifestHash == Some(s.manifests[d.id].hash)
    && d.policyEvaluationId != None && d.policyEvaluationId.value in s.evaluations
    && d.lockedPolicyVersion == Some(s.evaluations[d.policyEvaluationId.value].policyVersion)
  }

  /** Nobody who approves under this binding, the caller included, is the requester. */
  ghost predicate NobodyApprovesTheirOwn(s: State, subject: string, d: DrawRequest, hash: string) {
    && subject != d.requestedBy
    && forall decision :: decision in s.decisions && decision.drawId == d.id && decision.bindingHash == hash ==> decision.approver != d.requestedBy
  }

  lemma RoleMeansGrant(env: Env, subject: string, roles: seq<string>, scopes: seq<string>)
    ensures RequireRole(env, subject, roles, scopes).Ok? <==> MayAct(env, subject, roles, scopes)
  {
    RoleGranted(env, subject, roles, scopes);
    if g :| g in env.grants && g.subject == subject && g.role in roles && (g.scope == None || g.scope.value in scopes) {
      var i :| 0 <= i < |roles| && roles[i] == g.role;
      assert HoldsRole(env, subject, roles[i], scopes);
    }
  }

  lemma PayeeReadyMeans(env: Env, d: DrawRequest)
    ensures PayeeVerified(env, d.payeeBankAccountId) && !OpenHoldOn(env, d) <==> PayeeReady(env, d)
  {
    var holds := {TenantHold, DrawHold(d.id), DealHold(d.dealId), SpvHold(d.spvId), CounterpartyHold(d.payeeCounterpartyId)};
    if OpenHoldOn(env, d) {
      var h :| h in holds && h in env.openHolds;
      assert h in env.openHolds * holds;
    } else {
      assert forall h :: h in holds ==> h !in env.openHolds;
    }
  }

  lemma PayeeClearedMeans(env: Env, d: DrawRequest, maxAge: int)
    ensures SanctionsFresh(env, d.payeeCounterpartyId, maxAge) <==> PayeeCleared(env, d, maxAge)
  {
  }

  lemma EvidenceStandsMeans(s: State, d: DrawRequest, pack: PolicyPack)
    ensures EvidenceStands(s, d, pack) <==>
            && ManifestComplete(s, d.id, pack) && ManifestVerified(s, d.id)
            && d.id in s.manifests && Some(s.manifests[d.id].hash) == d.lockedManifestHash
            && d.policyEvaluationId.Some? && d.policyEvaluationId.value in s.evaluations
            && Some(s.evaluations[d.policyEvaluationId.value].policyVersion) == d.lockedPolicyVersion
  {
    CompleteMeans(s, d, pack);
    VerifiedMeans(s, d);
    hide ManifestComplete, ManifestVerified, Frozen;
  }

  lemma CompleteMeans(s: State, d: DrawRequest, pack: PolicyPack)
    ensures ManifestComplete(s, d.id, pack) <==> forall t :: t in pack.requiredEvidence ==> exists doc :: Frozen(s, d.id, doc) && doc.documentType == t
  {
    forall t ensures InManifest(s, d.id, t) <==> exists doc :: Frozen(s, d.id, doc) && doc.documentType == t {
      InManifestMeans(s, d.id, t);
    }
    hide InManifest, Frozen;
    if forall t :: t in pack.requiredEvidence ==> exists doc :: Frozen(s, d.id, doc) && doc.documentType == t {
      forall i | 0 <= i < |pack.requiredEvidence| ensures InManifest(s, d.id, pack.requiredEvidence[i]) {
        assert pack.requiredEvidence[i] in pack.requiredEvidence;
      }
    }
  }

  lemma InManifestMeans(s: State, drawId: string, t: string)
    ensures InManifest(s, drawId, t) <==> exists doc :: Frozen(s, drawId, doc) && doc.documentType == t
  {
    if InManifest(s, drawId, t) {
      var i :| 0 <= i < |s.documents| && s.documents[i].id in s.manifests[drawId].documentIds && s.documents[i].documentType == t;
      assert Frozen(s, drawId, s.documents[i]);
    }
    if doc :| Frozen(s, drawId, doc) && doc.documentType == t {
      var i :| 0 <= i < |s.documents| && s.documents[i] == doc;
    }
  }

  lemma VerifiedMeans(s: State, d: DrawRequest)
    ensures ManifestVerified(s, d.id) <==> forall doc :: Frozen(s, d.id, doc) ==> doc.verified
  {
    if forall doc :: Frozen(s, d.id, doc) ==> doc.verified {
      forall i | 0 <= i < |s.documents| && d.id in s.manifests && s.documents[i].id in s.manifests[d.id].documentIds ensures s.documents[i].verified {
        assert Frozen(s, d.id, s.documents[i]);
      }
    }
  }

  lemma OwnApprovalMeans(s: State, subject: string, d: DrawRequest, hash: string)
    ensures d.requestedBy !in Approvers(s.decisions, d.id, hash) + {subject} <==> NobodyApprovesTheirOwn(s, subject, d, hash)
  {
    if d.requestedBy in Approvers(s.decisions, d.id, hash) {
      var i :| 0 <= i < |s.decisions| && s.decisions[i].drawId == d.id && s.decisions[i].bindingHash == hash && s.decisions[i].approver == d.requestedBy;
      assert s.decisions[i] in s.decisions;
    }
    if decision :| decision in s.decisions && decision.drawId == d.id && decision.bindingHash == hash && decision.approver == d.requestedBy {
      var i :| 0 <= i < |s.decisions| && s.decisions[i] == decision;
      assert decision.approver in Approvers(s.decisions, d.id, hash);
    }
  }

  /** No rule but the number of approvers stands against the approval. */
  ghost predicate Unblocked(s: State, env: Env, subject: string, d: DrawRequest, pack: PolicyPack, hash: string,
                            remaining: int, eligible: int, c: Controls, amount: int) {
    forall f: Failure :: !f.ApprovalsIncomplete? ==>
      !Blocks(f, Some(amount), d.amountRequested, ContextOf(s, env, subject, d, pack, hash, remaining, eligible, c))
  }

  /** What the sixteen rules besides the number of approvers ask of their context. */
  predicate RulesMet(approved: int, requested: int, ctx: ApprovalContext) {
    && ctx.manifestComplete && !ctx.manifestItemExpiredOrUnverified
    && approved <= requested && approved <= ctx.eligibleThisDrawMinor && approved <= ctx.remainingBudgetMinor
    && ctx.retainageApplied && (ctx.covenantStatus.Current? || ctx.covenantStatus.Watch? || ctx.waiverCoversBreach)
    && (ctx.loanInBalancePasses || ctx.deficiencyDepositConfirmed)
    && ctx.approversDistinctFromRequester && ctx.noApproverIsInstructor && !ctx.openHold && ctx.payeeVerified && ctx.sanctionsFresh
    && ctx.settlementRouteValid && ctx.policyVersionMatchesLock && ctx.manifestHashMatchesLock
  }

  lemma MetMeansNoBlock(f: Failure, approved: int, requested: int, ctx: ApprovalContext)
    requires RulesMet(approved, requested, ctx) && !f.ApprovalsIncomplete?
    ensures !Blocks(f, Some(approved), requested, ctx)
  {
  }

  lemma NoBlockMeansMet(approved: int, requested: int, ctx: ApprovalContext)
    requires forall f: Failure :: !f.ApprovalsIncomplete? ==> !Blocks(f, Some(approved), requested, ctx)
    ensures RulesMet(approved, requested, ctx)
  {
    var a := Some(approved);
    assert !Blocks(ManifestIncomplete, a, requested, ctx) && !Blocks(ManifestItemInvalid, a, requested, ctx);
    assert !Blocks(ApprovedAmountInvalid, a, requested, ctx) && !Blocks(ExceedsEligibleThisDraw, a, requested, ctx);
    assert !Blocks(ExceedsRemainingBudget, a, requested, ctx) && !Blocks(RetainageNotApplied, a, requested, ctx);
    assert !Blocks(CovenantBlocks, a, requested, ctx) && !Blocks(LoanInBalanceFail, a, requested, ctx);
    assert !Blocks(SelfApproval, a, requested, ctx) && !Blocks(ApproverIsInstructor, a, requested, ctx);
    assert !Blocks(OpenHold, a, requested, ctx) && !Blocks(PayeeNotVerified, a, requested, ctx) && !Blocks(SanctionsStale, a, requested, ctx);
    assert !Blocks(SettlementRouteInvalid, a, requested, ctx) && !Blocks(PolicyLockMismatch, a, requested, ctx);
    assert !Blocks(ManifestLockMismatch, a, requested, ctx);
  }

  lemma RulesAre(approved: int, requested: int, ctx: ApprovalContext)
    ensures (forall f: Failure :: !f.ApprovalsIncomplete? ==> !Blocks(f, Some(approved), requested, ctx)) <==> RulesMet(approved, requested, ctx)
  {
    hide Blocks, RulesMet;
    if RulesMet(approved, requested, ctx) {
      forall f: Failure | !f.ApprovalsIncomplete? ensures !Blocks(f, Some(approved), requested, ctx) {
        MetMeansNoBlock(f, approved, requested, ctx);
      }
    }
    if forall f: Failure :: !f.ApprovalsIncomplete? ==> !Blocks(f, Some(approved), requested, ctx) {
      NoBlockMeansMet(approved, requested, ctx);
    }
  }

  /** Everything an approval rests on, in the rows of the tables: payee, sanctions, holds, currency, controls, evidence, locks, separation of duties. */
  ghost predicate ApprovalGrounds(s: State, env: Env, subject: string, d: DrawRequest, pack: PolicyPack, hash: string,
                                  remaining: int, eligible: int, c: Controls, amount: int) {
    && PayeeReady(env, d) && PayeeCleared(env, d, pack.sanctionsMaxAge)
    && d.payeeBankAccountId in env.accounts && env.accounts[d.payeeBankAccountId].currency == d.currency
    && ControlsAllow(d, amount, remaining, eligible, c)
    && EvidenceStands(s, d, pack)
    && NobodyApprovesTheirOwn(s, subject, d, hash)
  }

  /** No rule stands against an approval exactly if all its grounds are given. */
  lemma UnblockedExactlyOnGrounds(s: State, env: Env, subject: string, d: DrawRequest, pack: PolicyPack, hash: string,
                                  remaining: int, eligible: int, c: Controls, amount: int)
    ensures Unblocked(s, env, subject, d, pack, hash, remaining, eligible, c, amount)
       <==> ApprovalGrounds(s, env, subject, d, pack, hash, remaining, eligible, c, amount)
  {
    PayeeReadyMeans(env, d);
    PayeeClearedMeans(env, d, pack.sanctionsMaxAge);
    EvidenceStandsMeans(s, d, pack);
    OwnApprovalMeans(s, subject, d, hash);
    hide PayeeVerified, OpenHoldOn, PayeeReady, SanctionsFresh, PayeeCleared, ManifestComplete, ManifestVerified, EvidenceStands,
         NobodyApprovesTheirOwn, Blocks, Approvers;
    RulesAre(amount, d.amountRequested, ContextOf(s, env, subject, d, pack, hash, remaining, eligible, c));
  }

  /** Every recorded approval, final or not, is by a person with an approver role in scope and rests on all of its grounds. */
  lemma ApprovalNeedsGrounds(cfg: Config, s: State, env: Env, subject: string, input: ApproveInput)
    requires Approve(cfg, s, env, subject, input).Ok? && !KeyUsed(s.chain.rows, input.idempotencyKey)
    ensures input.drawId in s.draws && s.draws[input.drawId].status == UnderReview
    ensures s.draws[input.drawId].lockedPolicyVersion.Some? && s.draws[input.drawId].lockedPolicyVersion.value in cfg.packs
    ensures ParseMinor(input.amountApproved).Some? && ParseMinor(input.controls.remainingBudget).Some? && ParseMinor(input.controls.eligibleThisDraw).Some?
    ensures var d, amount := s.draws[input.drawId], ParseMinor(input.amountApproved).value;
            var pack := cfg.packs[d.lockedPolicyVersion.value];
            && MayAct(env, subject, pack.approverRoles, [d.dealId, d.spvId]) && IsPerson(env, subject)
            && ApprovalGrounds(s, env, subject, d, pack, BindingHash(cfg, d, amount), ParseMinor(input.controls.remainingBudget).value,
                               ParseMinor(input.controls.eligibleThisDraw).value, input.controls, amount)
  {
    hide TransitionDraw, SaveDraw, Log, KeyUsed, RequireRole, DecisionPayload, Blocks, ContextOf, BindingHash, InsertDecision, ParseMinor,
         ServiceAccount, HoldsRole, MayAct, IsPerson, ApprovalGrounds;
    var d, amount := s.draws[input.drawId], ParseMinor(input.amountApproved).value;
    var remaining, eligible := ParseMinor(input.controls.remainingBudget).value, ParseMinor(input.controls.eligibleThisDraw).value;
    var pack := PackOf(cfg, d.lockedPolicyVersion).value;
    var hash := BindingHash(cfg, d, amount);
    RoleMeansGrant(env, subject, pack.approverRoles, [d.dealId, d.spvId]);
    UnblockedExactlyOnGrounds(s, env, subject, d, pack, hash, remaining, eligible, input.controls, amount);
    var decision := Decision(d.id, subject, RequireRole(env, subject, pack.approverRoles, [d.dealId, d.spvId]).value, d.lockedPolicyVersion,
                             d.lockedManifestHash, hash, input.idempotencyKey);
    DecisionWasAllowed(cfg, s, env, subject, input, d, pack, decision);
    PersonMeans(env, subject);
  }

  lemma PersonMeans(env: Env, subject: string)
    ensures ServiceAccount(env, subject) <==> !IsPerson(env, subject)
  {
  }

  /** An otherwise well-formed approval is blocked exactly if one of its grounds is missing; missing approvers alone never block it. */
  lemma BlockedExactlyWithoutGrounds(cfg: Config, s: State, env: Env, subject: string, input: ApproveInput)
    requires subject != "" && input.idempotencyKey != "" && !KeyUsed(s.chain.rows, input.idempotencyKey)
    requires input.drawId in s.draws && s.draws[input.drawId].status == UnderReview
    requires s.draws[input.drawId].lockedPolicyVersion.Some? && s.draws[input.drawId].lockedPolicyVersion.value in cfg.packs
    requires MayAct(env, subject, cfg.packs[s.draws[input.drawId].lockedPolicyVersion.value].approverRoles,
                    [s.draws[input.drawId].dealId, s.draws[input.drawId].spvId])
    requires ParseMinor(input.amountApproved).Some? && ParseMinor(input.controls.remainingBudget).Some? && ParseMinor(input.controls.eligibleThisDraw).Some?
    ensures var d, amount := s.draws[input.drawId], ParseMinor(input.amountApproved).value;
            var pack := cfg.packs[d.lockedPolicyVersion.value];
            (Approve(cfg, s, env, subject, input) == Err(ApprovalBlocked) <==>
             !ApprovalGrounds(s, env, subject, d, pack, BindingHash(cfg, d, amount), ParseMinor(input.controls.remainingBudget).value,
                              ParseMinor(input.controls.eligibleThisDraw).value, input.controls, amount))
  {
    hide KeyUsed, RequireRole, DecisionPayload, Blocks, ContextOf, BindingHash, ParseMinor, MayAct, ApprovalGrounds, AppendTo, MoveEvent, PlainEvent,
         DecisionAllowed, RowChecks, LocksKept;
    var d, amount := s.draws[input.drawId], ParseMinor(input.amountApproved).value;
    var remaining, eligible := ParseMinor(input.controls.remainingBudget).value, ParseMinor(input.controls.eligibleThisDraw).value;
    var pack := PackOf(cfg, d.lockedPolicyVersion).value;
    RoleMeansGrant(env, subject, pack.approverRoles, [d.dealId, d.spvId]);
    UnblockedExactlyOnGrounds(s, env, subject, d, pack, BindingHash(cfg, d, amount), remaining, eligible, input.controls, amount);
  }

  lemma DecisionWasAllowed(cfg: Config, s: State, env: Env, subject: string, input: ApproveInput, d: DrawRequest, pack: PolicyPack, decision: Decision)
    requires Approve(cfg, s, env, subject, input).Ok? && !KeyUsed(s.chain.rows, input.idempotencyKey)
    requires d == s.draws[input.drawId] && PackOf(cfg, d.lockedPolicyVersion) == Ok(pack)
    requires decision == Decision(d.id, subject, RequireRole(env, subject, pack.approverRoles, [d.dealId, d.spvId]).value, d.lockedPolicyVersion,
                                  d.lockedManifestHash, BindingHash(cfg, d, ParseMinor(input.amountApproved).value), input.idempotencyKey)
    ensures subject != d.requestedBy && !ServiceAccount(env, subject)
  {
    hide TransitionDraw, SaveDraw, Log, KeyUsed, RequireRole, DecisionPayload, Blocks, ContextOf, BindingHash, ParseMinor, ServiceAccount;
  }

  /**
   * An instruction is accepted only from a person who is treasury owner in scope, neither requested nor decided on the draw, for a
   * verified and cooled payee account without open holds, and under a reference never used.
   */
  lemma InstructionNeedsGrounds(cfg: Config, s: State, env: Env, subject: string, input: InstructInput)
    requires Reachable(cfg, s) && Instruct(cfg, s, env, subject, input).Ok? && !KeyUsed(s.chain.rows, input.idempotencyKey)
    ensures input.drawId in s.draws
    ensures var d := s.draws[input.drawId];
            && d.status == Approved && MayAct(env, subject, ["TreasuryOwner"], [d.dealId, d.spvId])
            && (exists g :: g in env.grants && g.subject == subject && g.role == "TreasuryOwner" && !g.isServiceAccount)
            && subject != d.requestedBy && (forall decision :: decision in s.decisions && decision.drawId == d.id ==> decision.approver != subject)
            && PayeeReady(env, d)
            && (input.externalPartnerId, input.settlementReference) !in s.instructions
  {
    hide Reachable, Inv, InstructChange, Instruct, KeyUsed, MayAct, PayeeReady;
    ReachableInv(cfg, s);
    StoredUnder(cfg, s);
    InstructChanges(cfg, s, env, subject, input);
    InstructionGrounds(cfg, s, Instruct(cfg, s, env, subject, input).value, env, subject, input);
    InstructorMayAct(cfg, s, env, subject, input);
  }

  lemma InstructionGrounds(cfg: Config, s: State, t: State, env: Env, subject: string, input: InstructInput)
    requires Inv(cfg, s) && InstructChange(cfg, s, t, env, subject, input)
    ensures var d := s.draws[input.drawId];
            && d.status == Approved && (exists g :: g in env.grants && g.subject == subject && g.role == "TreasuryOwner" && !g.isServiceAccount)
            && subject != d.requestedBy && (forall decision :: decision in s.decisions && decision.drawId == d.id ==> decision.approver != subject)
            && PayeeReady(env, d)
            && (input.externalPartnerId, input.settlementReference) !in s.instructions
  {
    SettledStatuses(cfg, s, input.drawId);
    PayeeReadyMeans(env, s.draws[input.drawId]);
    hide Inv, Extended, KeyUsed, RowChecks, PayeeVerified, OpenHoldOn, PayeeReady, StatusName;
  }

  lemma SettledStatuses(cfg: Config, s: State, id: string)
    requires Inv(cfg, s) && id in s.draws
    ensures !s.draws[id].status.SettlementFailed?
  {
  }

  lemma InstructorMayAct(cfg: Config, s: State, env: Env, subject: string, input: InstructInput)
    requires Instruct(cfg, s, env, subject, input).Ok? && !KeyUsed(s.chain.rows, input.idempotencyKey)
    ensures input.drawId in s.draws
    ensures MayAct(env, subject, ["TreasuryOwner"], [s.draws[input.drawId].dealId, s.draws[input.drawId].spvId])
  {
    hide TransitionDraw, SaveDraw, KeyUsed, InstructedPayload, InstructionAllowed, Decided, MayAct, RequireRole;
    RoleMeansGrant(env, subject, ["TreasuryOwner"], [s.draws[input.drawId].dealId, s.draws[input.drawId].spvId]);
  }
}
