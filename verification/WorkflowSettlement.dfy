/** Settlement: one instruction per draw, one confirmation per reference, one match per reconciled draw. */
module WorkflowSettlement {
  import opened Ordering
  import opened CanonicalJson
  import opened DrawMachine
  import opened ConfirmationCsv
  import opened Workflow
  import opened WorkflowChanges

  // ---------------------------------------------------------------------------
  // The invariant
  // ---------------------------------------------------------------------------

  /** The states the workflow's operations leave a draw in. */
  predicate ReachableStatus(s: Status) {
    s in {Draft, Submitted, UnderReview, Approved, SettlementInstructed, Reconciled, ReconciliationException}
  }

  /** The states that come with a settlement instruction. */
  predicate Instructed(s: Status) {
    s in {SettlementInstructed, Reconciled, ReconciliationException}
  }

  /** The instruction carries what its draw was approved for, and its author neither requested nor approved it. */
  ghost predicate InstructionRight(draws: map<string, DrawRequest>, decisions: seq<Decision>, i: Instruction) {
    i.drawId in draws
    && var d := draws[i.drawId];
       Instructed(d.status) && (i.status.Sent? <==> d.status.SettlementInstructed?)
       && Some(i.amount) == d.amountApproved && i.amount > 0 && i.currency == d.currency && i.payeeBankAccountId == d.payeeBankAccountId
       && i.policyVersion == d.lockedPolicyVersion && i.manifestHash == d.lockedManifestHash && i.bindingHash == d.approvalBindingHash
       && i.instructedBy != d.requestedBy && !Decided(decisions, i.drawId, i.instructedBy)
  }

  ghost predicate HasInstruction(instructions: map<(string, string), Instruction>, drawId: string) {
    exists k :: k in instructions && instructions[k].drawId == drawId
  }

  ghost predicate EachRight(draws: map<string, DrawRequest>, decisions: seq<Decision>, instructions: map<(string, string), Instruction>) {
    forall k :: k in instructions ==> InstructionRight(draws, decisions, instructions[k])
  }

  /** No draw is instructed twice, and no two instructions share an id. */
  ghost predicate OnePerDraw(instructions: map<(string, string), Instruction>) {
    forall k, l :: k in instructions && l in instructions && k != l ==>
      instructions[k].drawId != instructions[l].drawId && instructions[k].id != instructions[l].id
  }

  ghost predicate StatusesRight(draws: map<string, DrawRequest>, instructions: map<(string, string), Instruction>) {
    forall id :: id in draws ==> ReachableStatus(draws[id].status) && (Instructed(draws[id].status) ==> HasInstruction(instructions, id))
  }

  ghost predicate InstructionsInv(draws: map<string, DrawRequest>, decisions: seq<Decision>, instructions: map<(string, string), Instruction>) {
    EachRight(draws, decisions, instructions) && OnePerDraw(instructions) && StatusesRight(draws, instructions)
  }

  /** The confirmation is the one of this instruction. */
  predicate Confirms(c: Confirmation, k: (string, string), i: Instruction) {
    (c.partner, c.reference) == k && c.instructionId == Some(i.id)
  }

  ghost predicate IsConfirmed(confirmations: seq<Confirmation>, k: (string, string), i: Instruction) {
    exists j :: 0 <= j < |confirmations| && Confirms(confirmations[j], k, i)
  }

  ghost predicate ConfirmationsInv(instructions: map<(string, string), Instruction>, confirmations: seq<Confirmation>) {
    (forall i, j :: 0 <= i < j < |confirmations| ==>
       (confirmations[i].partner, confirmations[i].reference) != (confirmations[j].partner, confirmations[j].reference))
    && (forall i, j :: 0 <= i < j < |confirmations| ==> confirmations[i].id != confirmations[j].id)
    && (forall i :: 0 <= i < |confirmations| ==> confirmations[i].amount > 0 && confirmations[i].enteredBy != confirmations[i].secondEntryBy)
    && (forall k :: k in instructions && instructions[k].status.ConfirmedByPartner? ==> IsConfirmed(confirmations, k, instructions[k]))
  }

  predicate Matched(r: ReconciliationRecord) {
    r.codes == []
  }

  /** Instruction and confirmation of a match, in exact agreement. */
  predicate Settles(r: ReconciliationRecord, k: (string, string), i: Instruction, c: Confirmation) {
    r.drawId == Some(i.drawId) && r.instructionId == Some(i.id) && r.confirmationId == Some(c.id)
    && Confirms(c, k, i) && c.amount == i.amount && c.currency == i.currency
  }

  /** A MATCHED record reconciles its draw with a stored instruction and its stored confirmation. */
  ghost predicate MatchRight(draws: map<string, DrawRequest>, instructions: map<(string, string), Instruction>,
                             confirmations: seq<Confirmation>, r: ReconciliationRecord) {
    r.drawId.Some? && r.drawId.value in draws && draws[r.drawId.value].status.Reconciled?
    && exists k, j :: k in instructions && 0 <= j < |confirmations| && Settles(r, k, instructions[k], confirmations[j])
  }

  ghost predicate HasMatch(records: seq<ReconciliationRecord>, drawId: string) {
    exists i :: 0 <= i < |records| && Matched(records[i]) && records[i].drawId == Some(drawId)
  }

  ghost predicate RecordsInv(draws: map<string, DrawRequest>, instructions: map<(string, string), Instruction>,
                             confirmations: seq<Confirmation>, records: seq<ReconciliationRecord>) {
    (forall i :: 0 <= i < |records| && Matched(records[i]) ==> MatchRight(draws, instructions, confirmations, records[i]))
    && (forall i, j :: 0 <= i < j < |records| && Matched(records[i]) && Matched(records[j]) ==> records[i].drawId != records[j].drawId)
    && (forall id :: id in draws && draws[id].status.Reconciled? ==> HasMatch(records, id))
  }

  ghost predicate SettlementInv(s: State) {
    InstructionsInv(s.draws, s.decisions, s.instructions) && ConfirmationsInv(s.instructions, s.confirmations)
    && RecordsInv(s.draws, s.instructions, s.confirmations, s.records)
  }

  // ---------------------------------------------------------------------------
  // Changes before settlement
  // ---------------------------------------------------------------------------

  /** A change to none of the tables settlement rests on. */
  lemma ElsewhereKeepsSettlement(s: State, t: State)
    requires SettlementInv(s) && t.draws == s.draws && t.decisions == s.decisions && t.instructions == s.instructions
    requires t.confirmations == s.confirmations && t.records == s.records
    ensures SettlementInv(t)
  {
  }

  /** A draw without instruction changes to a state without instruction, or is decided on. */
  ghost predicate Uninstructed(s: State, t: State, next: DrawRequest) {
    t.instructions == s.instructions && t.confirmations == s.confirmations && t.records == s.records
    && (t.draws == s.draws || t.draws == s.draws[next.id := next])
    && (next.id in s.draws ==> !Instructed(s.draws[next.id].status))
    && ReachableStatus(next.status) && !Instructed(next.status)
    && |s.decisions| <= |t.decisions| && s.decisions == t.decisions[..|s.decisions|]
    && (forall i :: |s.decisions| <= i < |t.decisions| ==> t.decisions[i].drawId == next.id)
  }

  lemma UninstructedKeepsEach(s: State, t: State, next: DrawRequest)
    requires EachRight(s.draws, s.decisions, s.instructions) && Uninstructed(s, t, next)
    ensures EachRight(t.draws, t.decisions, t.instructions)
  {
    forall k | k in t.instructions ensures InstructionRight(t.draws, t.decisions, t.instructions[k]) {
      var i := t.instructions[k];
      assert InstructionRight(s.draws, s.decisions, i);
      assert i.drawId != next.id;
      DecidedOnlyOn(s.decisions, t.decisions, next.id, i.drawId, i.instructedBy);
    }
  }

  lemma UninstructedKeepsRecords(s: State, t: State, next: DrawRequest)
    requires RecordsInv(s.draws, s.instructions, s.confirmations, s.records) && Uninstructed(s, t, next)
    ensures RecordsInv(t.draws, t.instructions, t.confirmations, t.records)
  {
    hide Settles;
    forall i | 0 <= i < |t.records| && Matched(t.records[i]) ensures MatchRight(t.draws, t.instructions, t.confirmations, t.records[i]) {
      assert MatchRight(s.draws, s.instructions, s.confirmations, s.records[i]);
    }
  }

  lemma UninstructedKeepsSettlement(s: State, t: State, next: DrawRequest)
    requires SettlementInv(s) && Uninstructed(s, t, next)
    ensures SettlementInv(t)
  {
    UninstructedKeepsEach(s, t, next);
    UninstructedKeepsRecords(s, t, next);
    hide ConfirmationsInv, RecordsInv, EachRight, OnePerDraw;
  }

  lemma DecidedOnlyOn(before: seq<Decision>, after: seq<Decision>, changed: string, drawId: string, approver: string)
    requires |before| <= |after| && before == after[..|before|] && drawId != changed
    requires forall i :: |before| <= i < |after| ==> after[i].drawId == changed
    ensures Decided(after, drawId, approver) <==> Decided(before, drawId, approver)
  {
    if Decided(before, drawId, approver) {
      var i :| 0 <= i < |before| && before[i].drawId == drawId && before[i].approver == approver;
      assert after[i] == before[i];
    }
    if Decided(after, drawId, approver) {
      var i :| 0 <= i < |after| && after[i].drawId == drawId && after[i].approver == approver;
      assert after[i] == before[i];
    }
  }

  lemma CreateKeepsSettlement(cfg: Config, s: State, t: State, env: Env, subject: string, input: DraftInput)
    requires SettlementInv(s) && CreateChange(cfg, s, t, env, subject, input)
    ensures SettlementInv(t)
  {
    hide SettlementInv, Extended, DrawWithKey, ParseMinor, NumberTaken, RowChecks;
    UninstructedKeepsSettlement(s, t, t.draws[env.id(0, 0)]);
  }

  lemma SubmitKeepsSettlement(cfg: Config, s: State, t: State, env: Env, subject: string, drawId: string, key: string)
    requires SettlementInv(s) && Keyed(s.draws) && SubmitChange(cfg, s, t, env, subject, drawId, key)
    ensures SettlementInv(t)
  {
    hide SettlementInv, Extended, KeyUsed, CurrentDocuments, ManifestHash, Ids, RowChecks;
    UninstructedKeepsSettlement(s, t, t.draws[drawId]);
  }

  lemma EvaluateKeepsSettlement(cfg: Config, s: State, t: State, env: Env, subject: string, drawId: string, key: string)
    requires SettlementInv(s) && Keyed(s.draws) && EvaluateChange(cfg, s, t, env, subject, drawId, key)
    ensures SettlementInv(t)
  {
    hide SettlementInv, Extended, KeyUsed, ManifestComplete, RowChecks;
    UninstructedKeepsSettlement(s, t, t.draws[drawId]);
  }

  lemma ApproveKeepsSettlement(cfg: Config, s: State, t: State, env: Env, subject: string, input: ApproveInput)
    requires SettlementInv(s) && Keyed(s.draws) && ApproveChange(cfg, s, t, env, subject, input)
    ensures SettlementInv(t)
  {
    hide SettlementInv, Extended, KeyUsed, Cleared, DecisionAllowed, BindingHash, RowChecks, ParseMinor, Approvers, PackOf;
    UninstructedKeepsSettlement(s, t, t.draws[input.drawId]);
  }

  // ---------------------------------------------------------------------------
  // Instructing
  // ---------------------------------------------------------------------------

  /** The tables after an instruction, named. */
  ghost predicate NewlyInstructed(s: State, t: State, k: (string, string), next: DrawRequest, i: Instruction) {
    next.id in s.draws && s.draws[next.id].status.Approved? && next == s.draws[next.id].(status := SettlementInstructed)
    && k !in s.instructions && t.instructions == s.instructions[k := i] && t.draws == s.draws[next.id := next]
    && t.decisions == s.decisions && t.confirmations == s.confirmations && t.records == s.records
    && InstructionRight(t.draws, t.decisions, i) && i.drawId == next.id && i.status.Sent?
    && forall l :: l in s.instructions ==> s.instructions[l].drawId != i.drawId && s.instructions[l].id != i.id
  }

  lemma InstructIsNew(cfg: Config, s: State, t: State, env: Env, subject: string, input: InstructInput)
    requires SettlementInv(s) && Keyed(s.draws) && InstructChange(cfg, s, t, env, subject, input)
    ensures var k := (input.externalPartnerId, input.settlementReference);
            NewlyInstructed(s, t, k, t.draws[input.drawId], t.instructions[k])
  {
    assert ReachableStatus(s.draws[input.drawId].status);
    hide Extended, KeyUsed, RowChecks, PayeeVerified, OpenHoldOn, Decided, SettlementInv;
  }

  lemma InstructionStays(s: State, t: State, k: (string, string), id: string)
    requires k in t.instructions && t.instructions == s.instructions[k := t.instructions[k]]
    requires k in s.instructions ==> t.instructions[k].drawId == s.instructions[k].drawId
    ensures HasInstruction(s.instructions, id) ==> HasInstruction(t.instructions, id)
  {
    if HasInstruction(s.instructions, id) {
      var l :| l in s.instructions && s.instructions[l].drawId == id;
      assert l in t.instructions && t.instructions[l].drawId == id;
    }
  }

  lemma InstructKeepsEach(s: State, t: State, k: (string, string), next: DrawRequest, i: Instruction)
    requires EachRight(s.draws, s.decisions, s.instructions) && NewlyInstructed(s, t, k, next, i)
    ensures EachRight(t.draws, t.decisions, t.instructions)
  {
    hide Decided;
    forall l | l in t.instructions ensures InstructionRight(t.draws, t.decisions, t.instructions[l]) {
      if l != k { assert InstructionRight(s.draws, s.decisions, s.instructions[l]); }
    }
  }

  lemma InstructKeepsStatuses(s: State, t: State, k: (string, string), next: DrawRequest, i: Instruction)
    requires StatusesRight(s.draws, s.instructions) && NewlyInstructed(s, t, k, next, i)
    ensures StatusesRight(t.draws, t.instructions)
  {
    hide Decided;
    forall id | id in t.draws ensures ReachableStatus(t.draws[id].status) && (Instructed(t.draws[id].status) ==> HasInstruction(t.instructions, id)) {
      if id == next.id { assert t.instructions[k].drawId == id; } else { InstructionStays(s, t, k, id); }
    }
  }

  lemma InstructKeepsMatch(s: State, t: State, k: (string, string), next: DrawRequest, i: Instruction, r: ReconciliationRecord)
    requires MatchRight(s.draws, s.instructions, s.confirmations, r) && NewlyInstructed(s, t, k, next, i)
    ensures MatchRight(t.draws, t.instructions, t.confirmations, r)
  {
    hide InstructionRight, Settles;
    MatchStays(s, t, k, r);
  }

  lemma InstructKeepsRecords(s: State, t: State, k: (string, string), next: DrawRequest, i: Instruction)
    requires RecordsInv(s.draws, s.instructions, s.confirmations, s.records) && NewlyInstructed(s, t, k, next, i)
    ensures RecordsInv(t.draws, t.instructions, t.confirmations, t.records)
  {
    hide InstructionRight, MatchRight;
    forall n | 0 <= n < |t.records| && Matched(t.records[n]) ensures MatchRight(t.draws, t.instructions, t.confirmations, t.records[n]) {
      InstructKeepsMatch(s, t, k, next, i, s.records[n]);
    }
  }

  lemma InstructKeepsOnePerDraw(s: State, t: State, k: (string, string), next: DrawRequest, i: Instruction)
    requires OnePerDraw(s.instructions) && NewlyInstructed(s, t, k, next, i)
    ensures OnePerDraw(t.instructions)
  {
    hide InstructionRight;
  }

  lemma InstructKeepsConfirmations(s: State, t: State, k: (string, string), next: DrawRequest, i: Instruction)
    requires ConfirmationsInv(s.instructions, s.confirmations) && NewlyInstructed(s, t, k, next, i)
    ensures ConfirmationsInv(t.instructions, t.confirmations)
  {
    hide InstructionRight, Confirms;
  }

  lemma InstructKeepsSettlement(cfg: Config, s: State, t: State, env: Env, subject: string, input: InstructInput)
    requires SettlementInv(s) && Keyed(s.draws) && InstructChange(cfg, s, t, env, subject, input)
    ensures SettlementInv(t)
  {
    InstructIsNew(cfg, s, t, env, subject, input);
    var k := (input.externalPartnerId, input.settlementReference);
    var next, i := t.draws[input.drawId], t.instructions[k];
    hide InstructChange, EachRight, OnePerDraw, StatusesRight, ConfirmationsInv, RecordsInv, NewlyInstructed;
    InstructKeepsOnePerDraw(s, t, k, next, i);
    InstructKeepsEach(s, t, k, next, i);
    InstructKeepsStatuses(s, t, k, next, i);
    InstructKeepsConfirmations(s, t, k, next, i);
    InstructKeepsRecords(s, t, k, next, i);
  }

  /** A match survives changes to other draws and instructions, and later confirmations. */
  lemma MatchStays(s: State, t: State, changed: (string, string), r: ReconciliationRecord)
    requires MatchRight(s.draws, s.instructions, s.confirmations, r)
    requires r.drawId.value in t.draws && t.draws[r.drawId.value].status.Reconciled?
    requires forall k :: k in s.instructions && k != changed ==> k in t.instructions && t.instructions[k] == s.instructions[k]
    requires changed in s.instructions ==> s.instructions[changed].drawId != r.drawId.value
    requires |s.confirmations| <= |t.confirmations| && s.confirmations == t.confirmations[..|s.confirmations|]
    ensures MatchRight(t.draws, t.instructions, t.confirmations, r)
  {
    var k, j :| k in s.instructions && 0 <= j < |s.confirmations| && Settles(r, k, s.instructions[k], s.confirmations[j]);
    assert t.confirmations[j] == s.confirmations[j] && k != changed;
    assert Settles(r, k, t.instructions[k], t.confirmations[j]);
  }

  // ---------------------------------------------------------------------------
  // Rows that end in an exception
  // ---------------------------------------------------------------------------

  lemma ConfirmationAdds(instructions: map<(string, string), Instruction>, confirmations: seq<Confirmation>, c: Confirmation)
    requires ConfirmationsInv(instructions, confirmations) && !ConfirmationExists(confirmations, c.id)
    requires !ReferenceConfirmed(confirmations, c.partner, c.reference) && c.amount > 0 && c.enteredBy != c.secondEntryBy
    ensures ConfirmationsInv(instructions, confirmations + [c])
  {
    var now := confirmations + [c];
    forall k | k in instructions && instructions[k].status.ConfirmedByPartner? ensures IsConfirmed(now, k, instructions[k]) {
      ConfirmedStays(confirmations, now, k, instructions[k]);
    }
  }

  lemma ConfirmedStays(before: seq<Confirmation>, after: seq<Confirmation>, k: (string, string), i: Instruction)
    requires IsConfirmed(before, k, i) && |before| <= |after| && before == after[..|before|]
    ensures IsConfirmed(after, k, i)
  {
    var j :| 0 <= j < |before| && Confirms(before[j], k, i);
    assert after[j] == before[j];
  }

  lemma MatchSeesLater(s: State, t: State, r: ReconciliationRecord)
    requires MatchRight(s.draws, s.instructions, s.confirmations, r) && t.draws == s.draws && t.instructions == s.instructions
    requires |s.confirmations| <= |t.confirmations| && s.confirmations == t.confirmations[..|s.confirmations|]
    ensures MatchRight(t.draws, t.instructions, t.confirmations, r)
  {
    hide Settles;
    var k, j :| k in s.instructions && 0 <= j < |s.confirmations| && Settles(r, k, s.instructions[k], s.confirmations[j]);
    assert t.confirmations[j] == s.confirmations[j];
  }

  /** An unmatched record and possibly a new confirmation. */
  lemma ExceptionKeepsRecords(s: State, t: State)
    requires RecordsInv(s.draws, s.instructions, s.confirmations, s.records) && t.draws == s.draws && t.instructions == s.instructions
    requires |s.confirmations| <= |t.confirmations| && s.confirmations == t.confirmations[..|s.confirmations|]
    requires |t.records| == |s.records| + 1 && s.records == t.records[..|s.records|] && !Matched(t.records[|s.records|])
    ensures RecordsInv(t.draws, t.instructions, t.confirmations, t.records)
  {
    hide MatchRight;
    forall i | 0 <= i < |t.records| && Matched(t.records[i]) ensures MatchRight(t.draws, t.instructions, t.confirmations, t.records[i]) {
      assert t.records[i] == s.records[i];
      MatchSeesLater(s, t, s.records[i]);
    }
    forall id | id in t.draws && t.draws[id].status.Reconciled? ensures HasMatch(t.records, id) {
      MatchKept(s.records, t.records, id);
    }
  }

  lemma MatchKept(before: seq<ReconciliationRecord>, after: seq<ReconciliationRecord>, id: string)
    requires HasMatch(before, id) && |before| <= |after| && before == after[..|before|]
    ensures HasMatch(after, id)
  {
    var i :| 0 <= i < |before| && Matched(before[i]) && before[i].drawId == Some(id);
    assert after[i] == before[i];
  }

  lemma ExceptionKeepsSettlement(cfg: Config, s: State, t: State, ic: ImportContext, row: CsvRow, drawId: Option<string>,
                                 instructionId: Option<string>, confirmation: Option<Confirmation>, codes: seq<Mismatch>)
    requires SettlementInv(s) && ExceptionChange(cfg, s, t, ic, row, drawId, instructionId, confirmation, codes) && codes != []
    requires confirmation.Some? ==> !ReferenceConfirmed(s.confirmations, confirmation.value.partner, confirmation.value.reference)
    ensures SettlementInv(t)
  {
    hide BreakLogged, InstructionsInv, RecordsInv, ConfirmationExists, ReferenceConfirmed;
    if confirmation.Some? { ConfirmationAdds(s.instructions, s.confirmations, confirmation.value); }
    hide ConfirmationsInv;
    ExceptionKeepsRecords(s, t);
  }

  // ---------------------------------------------------------------------------
  // Rows that settle a draw
  // ---------------------------------------------------------------------------

  /** The tables after a settled row, named. */
  ghost predicate Settled(s: State, t: State, k: (string, string), next: DrawRequest, c: Confirmation, r: ReconciliationRecord) {
    k in s.instructions && s.instructions[k].drawId == next.id && next.id in s.draws && s.draws[next.id].status.SettlementInstructed?
    && t.draws == s.draws[next.id := next] && t.decisions == s.decisions
    && t.instructions == s.instructions[k := s.instructions[k].(status := ConfirmedByPartner)]
    && t.confirmations == s.confirmations + [c] && t.records == s.records + [r]
    && next == s.draws[next.id].(status := next.status, reconciliationStatus := next.reconciliationStatus)
    && (next.status.Reconciled? || next.status.ReconciliationException?) && (Matched(r) <==> next.status.Reconciled?)
    && Confirms(c, k, s.instructions[k]) && (Matched(r) ==> Settles(r, k, s.instructions[k], c))
  }

  /** What a row without mismatches agrees on is what the database's guard asks for. */
  lemma NoMismatchMeansAgreement(cfg: Config, env: Env, ic: ImportContext, row: CsvRow, i: Instruction, accountRef: string)
    requires Mismatches(row, i, accountRef) == []
    ensures var c := NewConfirmation(cfg, env, ic, row, Some(i.id));
            c.amount == i.amount && c.currency == i.currency && c.payeeAccountRef == accountRef
            && !StringLess(row.settlementDate, DateOf(i.instructedAt))
  {
    hide Digest, RowJson, AuditText, StringLess;
    var amounts := if !MinorText(row.amountMinor) || NumeralOf(row) != i.amount then [Amount] else [];
    assert |amounts| <= |Mismatches(row, i, accountRef)|;
  }

  function NumeralOf(row: CsvRow): int {
    if MinorText(row.amountMinor) then ParseMinor(row.amountMinor).value else -1
  }

  lemma SettleIsSettled(cfg: Config, s: State, t: State, env: Env, ic: ImportContext, row: CsvRow)
    requires Keyed(s.draws) && SettleChange(cfg, s, t, env, ic, row)
    ensures var k := (row.externalPartnerId, row.settlementReference);
            var i := s.instructions[k];
            Settled(s, t, k, t.draws[i.drawId], NewConfirmation(cfg, env, ic, row, Some(i.id)), t.records[|s.records|])
  {
    var k := (row.externalPartnerId, row.settlementReference);
    var i := s.instructions[k];
    var accountRef := env.accounts[i.payeeBankAccountId].accountRef;
    if Mismatches(row, i, accountRef) == [] { NoMismatchMeansAgreement(cfg, env, ic, row, i, accountRef); }
    ConfirmationNames(cfg, env, ic, row, Some(i.id));
    hide Mismatches, NewConfirmation, TwiceMoved, RowChecks, ConfirmationExists;
  }

  lemma ConfirmationNames(cfg: Config, env: Env, ic: ImportContext, row: CsvRow, id: Option<string>)
    ensures var c := NewConfirmation(cfg, env, ic, row, id);
            c.partner == row.externalPartnerId && c.reference == row.settlementReference && c.instructionId == id
  {
    hide Digest, RowJson, AuditText;
  }

  lemma SettledKeepsEach(s: State, t: State, k: (string, string), next: DrawRequest, c: Confirmation, r: ReconciliationRecord)
    requires EachRight(s.draws, s.decisions, s.instructions) && OnePerDraw(s.instructions) && Settled(s, t, k, next, c, r)
    ensures EachRight(t.draws, t.decisions, t.instructions)
  {
    hide Decided, Confirms, Settles;
    forall l | l in t.instructions ensures InstructionRight(t.draws, t.decisions, t.instructions[l]) {
      assert InstructionRight(s.draws, s.decisions, s.instructions[l]);
    }
  }

  lemma SettledKeepsStatuses(s: State, t: State, k: (string, string), next: DrawRequest, c: Confirmation, r: ReconciliationRecord)
    requires StatusesRight(s.draws, s.instructions) && Settled(s, t, k, next, c, r)
    ensures StatusesRight(t.draws, t.instructions)
  {
    hide Confirms, Settles, Matched;
    forall id | id in t.draws ensures ReachableStatus(t.draws[id].status) && (Instructed(t.draws[id].status) ==> HasInstruction(t.instructions, id)) {
      assert id == next.id ==> s.instructions[k].drawId == id;
      InstructionStays(s, t, k, id);
    }
  }

  lemma SettledKeepsOnePerDraw(s: State, t: State, k: (string, string), next: DrawRequest, c: Confirmation, r: ReconciliationRecord)
    requires OnePerDraw(s.instructions) && Settled(s, t, k, next, c, r)
    ensures OnePerDraw(t.instructions)
  {
    hide Confirms, Settles, Matched;
  }

  lemma SettledKeepsInstructions(s: State, t: State, k: (string, string), next: DrawRequest, c: Confirmation, r: ReconciliationRecord)
    requires InstructionsInv(s.draws, s.decisions, s.instructions) && Settled(s, t, k, next, c, r)
    ensures InstructionsInv(t.draws, t.decisions, t.instructions)
  {
    hide EachRight, OnePerDraw, StatusesRight, Settled;
    SettledKeepsEach(s, t, k, next, c, r);
    SettledKeepsStatuses(s, t, k, next, c, r);
    SettledKeepsOnePerDraw(s, t, k, next, c, r);
  }

  lemma SettledKeepsConfirmations(s: State, t: State, k: (string, string), next: DrawRequest, c: Confirmation, r: ReconciliationRecord)
    requires SettlementInv(s) && Settled(s, t, k, next, c, r) && !ConfirmationExists(s.confirmations, c.id)
    requires !ReferenceConfirmed(s.confirmations, c.partner, c.reference) && c.amount > 0 && c.enteredBy != c.secondEntryBy
    ensures ConfirmationsInv(t.instructions, t.confirmations)
  {
    hide InstructionsInv, RecordsInv, Settles;
    ConfirmationAdds(s.instructions, s.confirmations, c);
    forall l | l in t.instructions && t.instructions[l].status.ConfirmedByPartner? ensures IsConfirmed(t.confirmations, l, t.instructions[l]) {
      if l == k {
        assert Confirms(t.confirmations[|s.confirmations|], k, t.instructions[k]);
      } else {
        assert IsConfirmed(t.confirmations, l, s.instructions[l]);
      }
    }
  }

  lemma SettledKeepsRecords(s: State, t: State, k: (string, string), next: DrawRequest, c: Confirmation, r: ReconciliationRecord)
    requires SettlementInv(s) && Settled(s, t, k, next, c, r)
    ensures RecordsInv(t.draws, t.instructions, t.confirmations, t.records)
  {
    hide InstructionsInv, ConfirmationsInv, Confirms;
    forall n | 0 <= n < |t.records| && Matched(t.records[n])
      ensures MatchRight(t.draws, t.instructions, t.confirmations, t.records[n])
      ensures n < |s.records| ==> t.records[n].drawId != Some(next.id)
    {
      if n < |s.records| {
        assert t.records[n] == s.records[n] && MatchRight(s.draws, s.instructions, s.confirmations, s.records[n]);
        MatchStays(s, t, k, s.records[n]);
      } else {
        assert t.confirmations[|s.confirmations|] == c && Settles(r, k, t.instructions[k], c) by { hide RecordsInv; SettlesConfirmed(r, k, s.instructions[k], c); }
      }
    }
    forall id | id in t.draws && t.draws[id].status.Reconciled? ensures HasMatch(t.records, id) {
      if id == next.id {
        assert Matched(t.records[|s.records|]) && t.records[|s.records|].drawId == Some(id);
      } else {
        MatchKept(s.records, t.records, id);
      }
    }
  }

  lemma SettlesConfirmed(r: ReconciliationRecord, k: (string, string), i: Instruction, c: Confirmation)
    requires Settles(r, k, i, c)
    ensures Settles(r, k, i.(status := ConfirmedByPartner), c)
  {
  }

  lemma SettleKeepsSettlement(cfg: Config, s: State, t: State, env: Env, ic: ImportContext, row: CsvRow)
    requires SettlementInv(s) && Keyed(s.draws) && SettleChange(cfg, s, t, env, ic, row)
    requires !ReferenceConfirmed(s.confirmations, row.externalPartnerId, row.settlementReference)
    ensures SettlementInv(t)
  {
    var k := (row.externalPartnerId, row.settlementReference);
    var i := s.instructions[k];
    var c := NewConfirmation(cfg, env, ic, row, Some(i.id));
    SettleIsSettled(cfg, s, t, env, ic, row);
    ConfirmationNames(cfg, env, ic, row, Some(i.id));
    assert !ConfirmationExists(s.confirmations, c.id) && c.amount > 0 && c.enteredBy != c.secondEntryBy;
    hide SettleChange, NewConfirmation, SettlementInv, Settled, ConfirmationExists, ReferenceConfirmed;
    SettledKeepsInstructions(s, t, k, t.draws[i.drawId], c, t.records[|s.records|]);
    SettledKeepsConfirmations(s, t, k, t.draws[i.drawId], c, t.records[|s.records|]);
    SettledKeepsRecords(s, t, k, t.draws[i.drawId], c, t.records[|s.records|]);
    AllSettlement(t);
  }

  lemma AllSettlement(t: State)
    requires InstructionsInv(t.draws, t.decisions, t.instructions) && ConfirmationsInv(t.instructions, t.confirmations)
    requires RecordsInv(t.draws, t.instructions, t.confirmations, t.records)
    ensures SettlementInv(t)
  {
  }
}
