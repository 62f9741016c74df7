/** Approval: who approved, what they approved, and that it stays approved by enough others. */
module WorkflowApproval {
  import opened Ordering
  import opened Decimal
  import opened CanonicalJson
  import opened Ledger
  import opened DrawMachine
  import opened ConfirmationCsv
  import opened Workflow
  import opened WorkflowChanges
  import opened WorkflowEvidence

  /** A decision is on a reviewed draw, under its locks, and not by its requester. */
  ghost predicate DecisionRight(draws: map<string, DrawRequest>, decision: Decision) {
    decision.drawId in draws
    && var d := draws[decision.drawId];
       decision.approver != d.requestedBy && !d.status.Draft? && !d.status.Submitted?
       && decision.policyVersion == d.lockedPolicyVersion && decision.manifestHash == d.lockedManifestHash
  }

  ghost predicate DecisionsInv(draws: map<string, DrawRequest>, decisions: seq<Decision>) {
    forall i :: 0 <= i < |decisions| ==> DecisionRight(draws, decisions[i])
  }

  /** Enough people other than the requester approved exactly the draw's current terms, on complete and verified evidence. */
  ghost predicate Bound(cfg: Config, s: State, d: DrawRequest) {
    d.amountApproved.Some? && 0 < d.amountApproved.value <= d.amountRequested
    && PackOf(cfg, d.lockedPolicyVersion).Ok?
    && var pack, hash := PackOf(cfg, d.lockedPolicyVersion).value, BindingHash(cfg, d, d.amountApproved.value);
       d.approvalBindingHash == Some(hash)
       && Cleared(s, d, pack, Approvers(s.decisions, d.id, hash))
  }

  ghost predicate ApprovalInv(cfg: Config, s: State) {
    DecisionsInv(s.draws, s.decisions)
    && (forall id :: id in s.draws ==> RowChecks(s.draws[id]))
    && (forall id :: id in s.draws && PastApproval(s.draws[id].status) ==> Bound(cfg, s, s.draws[id]))
  }

  // ---------------------------------------------------------------------------
  // What keeps a draw bound
  // ---------------------------------------------------------------------------

  lemma {:induction false} SmallerSet(a: set<string>, b: set<string>)
    requires a <= b
    ensures |a| <= |b|
  {
    if a != {} {
      var x :| x in a;
      SmallerSet(a - {x}, b - {x});
    }
  }

  /** The frozen manifest covers the same types, and verified documents stay verified. */
  ghost predicate ManifestKept(s: State, t: State, id: string) {
    (forall documentType :: InManifest(s, id, documentType) <==> InManifest(t, id, documentType))
    && (ManifestVerified(s, id) ==> ManifestVerified(t, id))
  }

  /** Decisions are only added. */
  ghost predicate DecisionsKept(s: State, t: State) {
    |s.decisions| <= |t.decisions| && s.decisions == t.decisions[..|s.decisions|]
  }

  /** What an approval binds, and the approval itself, are the same in both rows. */
  predicate SameTerms(a: DrawRequest, b: DrawRequest) {
    a.id == b.id && a.amountRequested == b.amountRequested && a.amountApproved == b.amountApproved && a.currency == b.currency
    && a.requestedBy == b.requestedBy && a.payeeBankAccountId == b.payeeBankAccountId && a.budgetLineIds == b.budgetLineIds
    && a.lockedManifestHash == b.lockedManifestHash && a.lockedPolicyVersion == b.lockedPolicyVersion
    && a.approvalBindingHash == b.approvalBindingHash
  }

  lemma ApproversGrow(s: State, t: State, id: string, hash: string)
    requires DecisionsKept(s, t)
    ensures Approvers(s.decisions, id, hash) <= Approvers(t.decisions, id, hash)
  {
    forall a | a in Approvers(s.decisions, id, hash) ensures a in Approvers(t.decisions, id, hash) {
      var i :| 0 <= i < |s.decisions| && s.decisions[i].drawId == id && s.decisions[i].bindingHash == hash && s.decisions[i].approver == a;
      assert t.decisions[i] == s.decisions[i];
    }
  }

  lemma RequesterIsNoApprover(draws: map<string, DrawRequest>, decisions: seq<Decision>, id: string, hash: string)
    requires DecisionsInv(draws, decisions) && id in draws
    ensures draws[id].requestedBy !in Approvers(decisions, id, hash)
  {
  }

  lemma StaysComplete(s: State, t: State, id: string, pack: PolicyPack)
    requires ManifestKept(s, t, id) && ManifestComplete(s, id, pack)
    ensures ManifestComplete(t, id, pack)
  {
    hide InManifest, ManifestVerified;
  }

  lemma StaysBound(cfg: Config, s: State, t: State, d: DrawRequest, e: DrawRequest)
    requires Bound(cfg, s, d) && SameTerms(d, e) && DecisionsKept(s, t) && ManifestKept(s, t, d.id)
    requires DecisionsInv(t.draws, t.decisions) && e.id in t.draws && t.draws[e.id].requestedBy == e.requestedBy
    ensures Bound(cfg, t, e)
  {
    var pack, hash := PackOf(cfg, d.lockedPolicyVersion).value, BindingHash(cfg, d, d.amountApproved.value);
    assert BindingHash(cfg, e, e.amountApproved.value) == hash;
    ApproversGrow(s, t, d.id, hash);
    SmallerSet(Approvers(s.decisions, d.id, hash), Approvers(t.decisions, d.id, hash));
    RequesterIsNoApprover(t.draws, t.decisions, e.id, hash);
    StaysComplete(s, t, d.id, pack);
    hide Approvers, ManifestComplete, ManifestVerified, InManifest, BindingHash, DecisionsInv;
  }

  lemma SameManifestKept(s: State, t: State, id: string)
    requires t.documents == s.documents && id in s.manifests && id in t.manifests && t.manifests[id] == s.manifests[id]
    ensures ManifestKept(s, t, id)
  {
    forall documentType ensures InManifest(s, id, documentType) <==> InManifest(t, id, documentType) {
    }
  }

  /** Past approval there is a frozen manifest. */
  lemma ApprovedHasManifest(cfg: Config, s: State, id: string)
    requires EvidenceInv(cfg, s) && id in s.draws && !s.draws[id].status.Draft?
    ensures id in s.manifests
  {
    hide DocumentsInv, VerifiedInv, FreezeOf;
    assert FrozenRight(cfg, s.draws, s.documents, s.manifests, id);
  }

  // ---------------------------------------------------------------------------
  // Changes to the evidence
  // ---------------------------------------------------------------------------

  lemma {:induction false} HeadsAreStored(table: seq<Document>, documents: seq<Document>, drawId: string)
    ensures forall d :: d in HeadsAmong(table, documents, drawId) ==> d in documents && d.drawId == drawId
  {
    if documents != [] {
      HeadsAreStored(table, documents[..|documents| - 1], drawId);
      assert documents == documents[..|documents| - 1] + [documents[|documents| - 1]];
    }
  }

  lemma {:induction false} IdsAreOf(documents: seq<Document>, id: string)
    requires id in Ids(documents)
    ensures exists d :: d in documents && d.id == id
  {
    if documents[0].id == id {
      assert documents[0] in documents;
    } else {
      IdsAreOf(documents[1..], id);
      var d :| d in documents[1..] && d.id == id;
      assert d in documents;
    }
  }

  /** The frozen ids are ids of stored documents. */
  lemma FrozenIdsAreStored(cfg: Config, documents: seq<Document>, drawId: string, id: string)
    requires id in FreezeOf(cfg, documents, drawId).documentIds
    ensures DocumentExists(documents, id)
  {
    hide ManifestHash, Ids;
    var current := CurrentDocuments(documents, drawId);
    IdsAreOf(current, id);
    var d :| d in current && d.id == id;
    SortKeepsElements(HeadsAmong(documents, documents, drawId), DocumentId);
    HeadsAreStored(documents, documents, drawId);
    var i :| 0 <= i < |documents| && documents[i] == d;
  }

  lemma UploadKeepsManifest(cfg: Config, s: State, t: State, d: Document, id: string)
    requires EvidenceInv(cfg, s) && t.manifests == s.manifests && t.documents == s.documents + [d] && !DocumentExists(s.documents, d.id)
    ensures ManifestKept(s, t, id)
  {
    hide DocumentsInv, VerifiedInv, FreezeOf;
    forall documentType | InManifest(s, id, documentType) ensures InManifest(t, id, documentType) {
      var i :| 0 <= i < |s.documents| && s.documents[i].id in s.manifests[id].documentIds && s.documents[i].documentType == documentType;
      assert t.documents[i] == s.documents[i];
    }
    if id in s.manifests && d.id in s.manifests[id].documentIds {
      assert FrozenRight(cfg, s.draws, s.documents, s.manifests, id);
      FrozenIdsAreStored(cfg, s.documents, id, d.id);
    }
    forall documentType | InManifest(t, id, documentType) ensures InManifest(s, id, documentType) {
      var i :| 0 <= i < |t.documents| && t.documents[i].id in t.manifests[id].documentIds && t.documents[i].documentType == documentType;
      assert i < |s.documents| && t.documents[i] == s.documents[i];
    }
  }

  lemma VerifyKeepsManifest(s: State, t: State, i: nat, id: string)
    requires i < |s.documents| && t.manifests == s.manifests && t.documents == s.documents[i := s.documents[i].(verified := true)]
    ensures ManifestKept(s, t, id)
  {
    forall documentType | InManifest(s, id, documentType) ensures InManifest(t, id, documentType) {
      var k :| 0 <= k < |s.documents| && s.documents[k].id in s.manifests[id].documentIds && s.documents[k].documentType == documentType;
      assert t.documents[k].id == s.documents[k].id && t.documents[k].documentType == documentType;
    }
    forall documentType | InManifest(t, id, documentType) ensures InManifest(s, id, documentType) {
      var k :| 0 <= k < |t.documents| && t.documents[k].id in t.manifests[id].documentIds && t.documents[k].documentType == documentType;
      assert t.documents[k].id == s.documents[k].id && s.documents[k].documentType == documentType;
    }
  }

  // ---------------------------------------------------------------------------
  // Every change keeps it
  // ---------------------------------------------------------------------------

  /** A change that adds no decision and only turns rows into rows with the same terms, or into rows not past approval. */
  lemma RowsKeepApproval(cfg: Config, s: State, t: State)
    requires ApprovalInv(cfg, s) && Keyed(s.draws) && Keyed(t.draws) && t.decisions == s.decisions
    requires forall id :: id in s.draws ==> id in t.draws && SuccessorOf(s.draws[id], t.draws[id])
    requires forall id :: id in t.draws ==> RowChecks(t.draws[id]) && (id !in s.draws ==> !PastApproval(t.draws[id].status))
    requires forall id :: id in s.draws && PastApproval(s.draws[id].status) ==> ManifestKept(s, t, id)
    ensures ApprovalInv(cfg, t)
  {
    hide RowChecks, Bound, ManifestKept;
    assert DecisionsInv(t.draws, t.decisions) by {
      forall i | 0 <= i < |t.decisions| ensures DecisionRight(t.draws, t.decisions[i]) {
        assert DecisionRight(s.draws, s.decisions[i]);
        assert SuccessorOf(s.draws[t.decisions[i].drawId], t.draws[t.decisions[i].drawId]);
      }
    }
    hide DecisionsInv;
    forall id | id in t.draws && PastApproval(t.draws[id].status) ensures Bound(cfg, t, t.draws[id]) {
      assert SuccessorOf(s.draws[id], t.draws[id]);
      StaysBound(cfg, s, t, s.draws[id], t.draws[id]);
    }
  }

  /** How a row may follow another without an approval in between. */
  predicate SuccessorOf(a: DrawRequest, b: DrawRequest) {
    a.requestedBy == b.requestedBy
    && (!a.status.Draft? ==> b.lockedPolicyVersion == a.lockedPolicyVersion && b.lockedManifestHash == a.lockedManifestHash)
    && (!a.status.Draft? && !a.status.Submitted? ==> !b.status.Draft? && !b.status.Submitted?)
    && (PastApproval(b.status) ==> PastApproval(a.status) && SameTerms(a, b))
  }

  lemma SaveKeepsApproval(cfg: Config, s: State, t: State, next: DrawRequest)
    requires ApprovalInv(cfg, s) && EvidenceInv(cfg, s) && Keyed(s.draws) && t.decisions == s.decisions
    requires next.id in s.draws && SuccessorOf(s.draws[next.id], next) && RowChecks(next) && t.draws == s.draws[next.id := next]
    requires t.documents == s.documents && forall id :: id in s.manifests ==> id in t.manifests && t.manifests[id] == s.manifests[id]
    ensures ApprovalInv(cfg, t)
  {
    forall id | id in s.draws && PastApproval(s.draws[id].status) ensures ManifestKept(s, t, id) {
      ApprovedHasManifest(cfg, s, id);
      SameManifestKept(s, t, id);
    }
    hide ManifestKept, EvidenceInv;
    assert RowsChecked(s.draws) by { hide Bound, DecisionsInv, RowChecks; }
    hide ApprovalInv, RowChecks;
    RowsKeepApproval(cfg, s, t);
  }

  ghost predicate RowsChecked(draws: map<string, DrawRequest>) {
    forall id :: id in draws ==> RowChecks(draws[id])
  }

  lemma CreateKeepsApproval(cfg: Config, s: State, t: State, env: Env, subject: string, input: DraftInput)
    requires ApprovalInv(cfg, s) && EvidenceInv(cfg, s) && Keyed(s.draws) && CreateChange(cfg, s, t, env, subject, input)
    ensures ApprovalInv(cfg, t)
  {
    hide Extended, DrawWithKey, ParseMinor, NumberTaken;
    forall id | id in s.draws && PastApproval(s.draws[id].status) ensures ManifestKept(s, t, id) {
      ApprovedHasManifest(cfg, s, id);
      SameManifestKept(s, t, id);
    }
    hide ManifestKept, EvidenceInv;
    assert RowsChecked(s.draws) by { hide Bound, DecisionsInv, RowChecks; }
    hide ApprovalInv, RowChecks;
    RowsKeepApproval(cfg, s, t);
  }

  lemma DocumentsKeepApproval(cfg: Config, s: State, t: State)
    requires ApprovalInv(cfg, s) && Keyed(s.draws) && t.draws == s.draws && t.decisions == s.decisions
    requires forall id :: id in s.draws && PastApproval(s.draws[id].status) ==> ManifestKept(s, t, id)
    ensures ApprovalInv(cfg, t)
  {
    assert RowsChecked(s.draws) by { hide Bound, DecisionsInv, RowChecks; }
    hide ApprovalInv, RowChecks, ManifestKept;
    RowsKeepApproval(cfg, s, t);
  }

  lemma UploadKeepsApproval(cfg: Config, s: State, t: State, env: Env, subject: string, input: UploadInput)
    requires ApprovalInv(cfg, s) && EvidenceInv(cfg, s) && Keyed(s.draws) && UploadChange(cfg, s, t, env, subject, input)
    ensures ApprovalInv(cfg, t)
  {
    hide Extended, NewDocument, KeyUsed, EvidenceInv, ApprovalInv;
    var d := NewDocument(cfg, s, env, subject, s.draws[input.drawId], input);
    forall id ensures ManifestKept(s, t, id) { UploadKeepsManifest(cfg, s, t, d, id); }
    DocumentsKeepApproval(cfg, s, t);
  }

  lemma VerifyKeepsApproval(cfg: Config, s: State, t: State, subject: string, documentId: string, key: string)
    requires ApprovalInv(cfg, s) && Keyed(s.draws) && VerifyChange(cfg, s, t, subject, documentId, key)
    ensures ApprovalInv(cfg, t)
  {
    hide Extended, FindDocument, KeyUsed, VerificationOf, ApprovalInv;
    forall id ensures ManifestKept(s, t, id) { VerifyKeepsManifest(s, t, FindDocument(s.documents, documentId).value, id); }
    DocumentsKeepApproval(cfg, s, t);
  }

  lemma SubmitKeepsApproval(cfg: Config, s: State, t: State, env: Env, subject: string, drawId: string, key: string)
    requires ApprovalInv(cfg, s) && EvidenceInv(cfg, s) && Keyed(s.draws) && SubmitChange(cfg, s, t, env, subject, drawId, key)
    ensures ApprovalInv(cfg, t)
  {
    hide Extended, KeyUsed, CurrentDocuments, ManifestHash, Ids, ApprovalInv, EvidenceInv, RowChecks;
    SaveKeepsApproval(cfg, s, t, t.draws[drawId]);
  }

  lemma EvaluateKeepsApproval(cfg: Config, s: State, t: State, env: Env, subject: string, drawId: string, key: string)
    requires ApprovalInv(cfg, s) && EvidenceInv(cfg, s) && Keyed(s.draws) && EvaluateChange(cfg, s, t, env, subject, drawId, key)
    ensures ApprovalInv(cfg, t)
  {
    hide Extended, KeyUsed, ManifestComplete, ApprovalInv, EvidenceInv, RowChecks;
    SaveKeepsApproval(cfg, s, t, t.draws[drawId]);
  }

  lemma InstructKeepsApproval(cfg: Config, s: State, t: State, env: Env, subject: string, input: InstructInput)
    requires ApprovalInv(cfg, s) && EvidenceInv(cfg, s) && Keyed(s.draws) && InstructChange(cfg, s, t, env, subject, input)
    ensures ApprovalInv(cfg, t)
  {
    hide Extended, KeyUsed, ApprovalInv, EvidenceInv, RowChecks, PayeeVerified, OpenHoldOn, Decided;
    SaveKeepsApproval(cfg, s, t, t.draws[input.drawId]);
  }

  lemma SettleKeepsApproval(cfg: Config, s: State, t: State, env: Env, ic: ImportContext, row: CsvRow)
    requires ApprovalInv(cfg, s) && EvidenceInv(cfg, s) && Keyed(s.draws) && SettleChange(cfg, s, t, env, ic, row)
    ensures ApprovalInv(cfg, t)
  {
    hide TwiceMoved, ApprovalInv, EvidenceInv, RowChecks, NewConfirmation, Mismatches, ConfirmationExists;
    var d := s.draws[s.instructions[(row.externalPartnerId, row.settlementReference)].drawId];
    SaveKeepsApproval(cfg, s, t, t.draws[d.id]);
  }

  /** A change to none of the tables an approval rests on. */
  lemma ElsewhereKeepsApproval(cfg: Config, s: State, t: State)
    requires ApprovalInv(cfg, s) && t.draws == s.draws && t.decisions == s.decisions
    requires t.documents == s.documents && t.manifests == s.manifests
    ensures ApprovalInv(cfg, t)
  {
    hide RowChecks, DecisionsInv;
    forall id | id in t.draws && PastApproval(t.draws[id].status) ensures Bound(cfg, t, t.draws[id]) {
      BoundByTables(cfg, s, t, t.draws[id]);
    }
  }

  lemma BoundByTables(cfg: Config, s: State, t: State, d: DrawRequest)
    requires Bound(cfg, s, d) && t.decisions == s.decisions && t.documents == s.documents && t.manifests == s.manifests
    ensures Bound(cfg, t, d)
  {
    hide BindingHash, Approvers;
    forall documentType | InManifest(s, d.id, documentType) ensures InManifest(t, d.id, documentType) {
    }
  }

  // ---------------------------------------------------------------------------
  // Approving
  // ---------------------------------------------------------------------------

  lemma ApproveKeepsDecisions(cfg: Config, s: State, t: State, env: Env, subject: string, d: DrawRequest, amount: nat, next: DrawRequest)
    requires DecisionsInv(s.draws, s.decisions) && d.id in s.draws && s.draws[d.id] == d && d.status.UnderReview?
    requires DecisionMade(cfg, s, t, env, subject, d, amount)
    requires t.draws == s.draws || t.draws == s.draws[d.id := next]
    requires next.requestedBy == d.requestedBy && !next.status.Draft? && !next.status.Submitted?
    requires next.lockedPolicyVersion == d.lockedPolicyVersion && next.lockedManifestHash == d.lockedManifestHash
    ensures DecisionsInv(t.draws, t.decisions)
  {
    hide BindingHash, ServiceAccount;
    forall i | 0 <= i < |t.decisions| ensures DecisionRight(t.draws, t.decisions[i]) {
      if i < |s.decisions| {
        assert t.decisions[i] == s.decisions[i];
        assert DecisionRight(s.draws, s.decisions[i]);
      }
    }
  }

  /** The new decision makes its author one of the approvers. */
  lemma DecisionCounts(cfg: Config, s: State, t: State, env: Env, subject: string, d: DrawRequest, amount: nat)
    requires DecisionMade(cfg, s, t, env, subject, d, amount)
    ensures Approvers(s.decisions, d.id, BindingHash(cfg, d, amount)) + {subject} == Approvers(t.decisions, d.id, BindingHash(cfg, d, amount))
  {
    hide BindingHash, DecisionAllowed;
    var hash := BindingHash(cfg, d, amount);
    ApproversGrow(s, t, d.id, hash);
    assert t.decisions[|s.decisions|].approver in Approvers(t.decisions, d.id, hash);
    forall a | a in Approvers(t.decisions, d.id, hash) && a != subject ensures a in Approvers(s.decisions, d.id, hash) {
      var i :| 0 <= i < |t.decisions| && t.decisions[i].drawId == d.id && t.decisions[i].bindingHash == hash && t.decisions[i].approver == a;
      assert i < |s.decisions| && t.decisions[i] == s.decisions[i];
    }
  }

  lemma ClearedByTables(s: State, t: State, d: DrawRequest, e: DrawRequest, pack: PolicyPack, approvers: set<string>)
    requires Cleared(s, d, pack, approvers) && t.documents == s.documents && t.manifests == s.manifests
    requires d.id == e.id && d.requestedBy == e.requestedBy
    ensures Cleared(t, e, pack, approvers)
  {
    forall documentType | InManifest(s, d.id, documentType) ensures InManifest(t, d.id, documentType) {
    }
  }

  lemma ApprovedIsBound(cfg: Config, s: State, t: State, env: Env, subject: string, d: DrawRequest, next: DrawRequest, amount: nat)
    requires DecisionMade(cfg, s, t, env, subject, d, amount) && PackOf(cfg, d.lockedPolicyVersion).Ok? && RowChecks(next)
    requires next == d.(status := Approved, amountApproved := Some(amount), approvalBindingHash := Some(BindingHash(cfg, d, amount)))
    requires Cleared(s, d, PackOf(cfg, d.lockedPolicyVersion).value, Approvers(s.decisions, d.id, BindingHash(cfg, d, amount)) + {subject})
    requires t.documents == s.documents && t.manifests == s.manifests
    ensures Bound(cfg, t, next)
  {
    DecisionCounts(cfg, s, t, env, subject, d, amount);
    assert BindingHash(cfg, next, amount) == BindingHash(cfg, d, amount);
    hide DecisionMade, BindingHash, Approvers, Cleared;
    ClearedByTables(s, t, d, next, PackOf(cfg, d.lockedPolicyVersion).value, Approvers(t.decisions, d.id, BindingHash(cfg, d, amount)));
  }

  lemma KeptIsBound(cfg: Config, s: State, t: State, id: string)
    requires ApprovalInv(cfg, s) && EvidenceInv(cfg, s) && Keyed(s.draws) && id in s.draws && id in t.draws && t.draws[id] == s.draws[id]
    requires t.documents == s.documents && t.manifests == s.manifests && DecisionsKept(s, t) && DecisionsInv(t.draws, t.decisions)
    requires PastApproval(s.draws[id].status)
    ensures Bound(cfg, t, t.draws[id])
  {
    assert Bound(cfg, s, s.draws[id]);
    hide ApprovalInv, Bound, DecisionsInv;
    ApprovedHasManifest(cfg, s, id);
    SameManifestKept(s, t, id);
    hide ManifestKept, EvidenceInv;
    StaysBound(cfg, s, t, s.draws[id], t.draws[id]);
  }

  /** Adding decisions, and possibly one newly bound row, keeps every other row bound. */
  lemma DecisionKeepsApproval(cfg: Config, s: State, t: State, next: DrawRequest)
    requires ApprovalInv(cfg, s) && EvidenceInv(cfg, s) && Keyed(s.draws)
    requires t.documents == s.documents && t.manifests == s.manifests && DecisionsKept(s, t) && DecisionsInv(t.draws, t.decisions)
    requires t.draws == s.draws || (t.draws == s.draws[next.id := next] && Bound(cfg, t, next) && RowChecks(next))
    ensures ApprovalInv(cfg, t)
  {
    hide RowChecks, DecisionsInv, EvidenceInv, Bound;
    forall id | id in t.draws && PastApproval(t.draws[id].status) ensures Bound(cfg, t, t.draws[id]) {
      if t.draws == s.draws || id != next.id { KeptIsBound(cfg, s, t, id); }
    }
  }

  lemma ApproveKeepsApproval(cfg: Config, s: State, t: State, env: Env, subject: string, input: ApproveInput)
    requires ApprovalInv(cfg, s) && EvidenceInv(cfg, s) && Keyed(s.draws) && ApproveChange(cfg, s, t, env, subject, input)
    ensures ApprovalInv(cfg, t)
  {
    var d, amount := s.draws[input.drawId], ParseMinor(input.amountApproved).value;
    var next := d.(status := Approved, amountApproved := Some(amount), approvalBindingHash := Some(BindingHash(cfg, d, amount)));
    assert DecisionsInv(s.draws, s.decisions);
    hide Extended, KeyUsed, ParseMinor, BindingHash, Cleared, RowChecks, Approvers, StatusName, DecisionsInv, EvidenceInv, DecisionAllowed,
         Bound, ApprovalInv, PackOf;
    ApproveKeepsDecisions(cfg, s, t, env, subject, d, amount, next);
    if t.draws != s.draws { ApprovedIsBound(cfg, s, t, env, subject, d, next, amount); }
    DecisionKeepsApproval(cfg, s, t, next);
  }

  // ---------------------------------------------------------------------------
  // What a binding hash commits to
  // ---------------------------------------------------------------------------

  /** Equal binding hashes were made for the same amount, currency, payee, manifest, policy and budget lines. */
  ghost predicate SameBinding(a: DrawRequest, m: nat, b: DrawRequest, n: nat) {
    m == n && a.currency == b.currency && a.payeeBankAccountId == b.payeeBankAccountId
    && a.lockedManifestHash == b.lockedManifestHash && a.lockedPolicyVersion == b.lockedPolicyVersion
    && SortBy(a.budgetLineIds, Itself) == SortBy(b.budgetLineIds, Itself)
  }

  lemma BindingKeysDistinct(d: DrawRequest, amount: nat)
    ensures DistinctKeys(BindingMembers(d, amount), MemberKey)
  {
    hide Numeral, Strings;
    var ms := BindingMembers(d, amount);
    assert |ms[0].key| == 21 && |ms[1].key| == 8 && |ms[2].key| == 21 && |ms[3].key| == 22 && |ms[4].key| == 14 && |ms[5].key| == 15;
    assert ms[0].key[0] == 'a' && ms[2].key[0] == 'p';
  }

  lemma {:induction false} StringsValid(texts: seq<string>)
    ensures ValidItems(Strings(texts))
  {
    if texts != [] {
      StringsValid(texts[1..]);
      assert Strings(texts)[1..] == Strings(texts[1..]);
    }
  }

  lemma BindingValid(d: DrawRequest, amount: nat)
    ensures ValidMembers(BindingMembers(d, amount))
  {
    StringsValid(SortBy(d.budgetLineIds, Itself));
    hide Numeral, Strings, ValidItems;
    MembersValid(BindingMembers(d, amount));
  }

  lemma {:induction false} StringsAt(texts: seq<string>, i: nat)
    requires i < |texts|
    ensures Strings(texts)[i] == Str(texts[i])
  {
    if i > 0 { StringsAt(texts[1..], i - 1); }
  }

  lemma SameStrings(a: seq<string>, b: seq<string>)
    requires Same(Arr(Strings(a)), Arr(Strings(b)))
    ensures a == b
  {
    forall i | 0 <= i < |a| ensures a[i] == b[i] {
      StringsAt(a, i);
      StringsAt(b, i);
      assert Same(Strings(a)[i], Strings(b)[i]);
    }
  }

  lemma MembersDetermineBinding(a: DrawRequest, m: nat, b: DrawRequest, n: nat)
    requires forall i :: 0 <= i < 6 ==> Same(BindingMembers(a, m)[i].value, BindingMembers(b, n)[i].value)
    ensures SameBinding(a, m, b, n)
  {
    hide Strings, Numeral, SortBy;
    var u, v := BindingMembers(a, m), BindingMembers(b, n);
    assert Same(u[0].value, v[0].value) && Same(u[1].value, v[1].value) && Same(u[2].value, v[2].value);
    assert Same(u[3].value, v[3].value) && Same(u[4].value, v[4].value) && Same(u[5].value, v[5].value);
    NumeralInjective(m, n);
    SameStrings(SortBy(a.budgetLineIds, Itself), SortBy(b.budgetLineIds, Itself));
  }

  /** With a collision-free hash an approval cannot be taken for one of other terms. */
  lemma BindingCommits(cfg: Config, a: DrawRequest, m: nat, b: DrawRequest, n: nat)
    requires CollisionFree(cfg.sha) && BindingHash(cfg, a, m) == BindingHash(cfg, b, n)
    ensures SameBinding(a, m, b, n)
  {
    var u, v := BindingMembers(a, m), BindingMembers(b, n);
    BindingKeysAgree(a, m, b, n);
    BindingKeysDistinct(a, m);
    BindingKeysDistinct(b, n);
    BindingValid(a, m);
    BindingValid(b, n);
    hide AuditText, ValidMembers, DistinctKeys, BindingMembers, SameBinding, Same;
    SamePrefix("sha256:", cfg.sha(AuditText(Obj(u))), cfg.sha(AuditText(Obj(v))));
    TextIsUnambiguous(Obj(u), Obj(v));
    AlignedSame(u, v);
    MembersDetermineBinding(a, m, b, n);
  }

  lemma BindingKeysAgree(a: DrawRequest, m: nat, b: DrawRequest, n: nat)
    ensures forall i :: 0 <= i < 6 ==> BindingMembers(a, m)[i].key == BindingMembers(b, n)[i].key
  {
    hide Strings, Numeral, SortBy;
  }

  lemma SamePrefix(prefix: string, a: string, b: string)
    requires prefix + a == prefix + b
    ensures a == b
  {
    assert (prefix + a)[|prefix|..] == a && (prefix + b)[|prefix|..] == b;
  }
}
