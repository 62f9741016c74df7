/** The draw's state machine, its approval rules, and what the audit log says about both. */
module DrawMachine {
  import opened Sums
  import opened CanonicalJson
  import opened Ledger

  datatype Status =
    | Draft | Submitted | UnderReview | Approved | SettlementInstructed | SettlementConfirmed | Reconciled | Closed
    | RequiresInformation | Held | Escalated | SettlementFailed | ReconciliationException
    | Rejected | Cancelled | Expired

  function AllowedTransitions(s: Status): set<Status> {
    match s
    case Draft => {Submitted, Cancelled}
    case Submitted => {UnderReview}
    case UnderReview => {RequiresInformation, Held, Escalated, Approved, Rejected, Expired}
    case RequiresInformation => {UnderReview}
    case Held => {UnderReview}
    case Escalated => {UnderReview}
    case Approved => {UnderReview, Held, Cancelled, SettlementInstructed}
    case SettlementInstructed => {SettlementConfirmed, SettlementFailed}
    case SettlementFailed => {SettlementInstructed, Cancelled, ReconciliationException}
    case SettlementConfirmed => {Reconciled, ReconciliationException}
    case ReconciliationException => {Reconciled}
    case Reconciled => {Closed}
    case Closed => {}
    case Rejected => {}
    case Cancelled => {}
    case Expired => {}
  }

  function StatusName(s: Status): string {
    match s
    case Draft => "DRAFT"
    case Submitted => "SUBMITTED"
    case UnderReview => "UNDER_REVIEW"
    case Approved => "APPROVED"
    case SettlementInstructed => "SETTLEMENT_INSTRUCTED"
    case SettlementConfirmed => "SETTLEMENT_CONFIRMED"
    case Reconciled => "RECONCILED"
    case Closed => "CLOSED"
    case RequiresInformation => "REQUIRES_INFORMATION"
    case Held => "HELD"
    case Escalated => "ESCALATED"
    case SettlementFailed => "SETTLEMENT_FAILED"
    case ReconciliationException => "RECONCILIATION_EXCEPTION"
    case Rejected => "REJECTED"
    case Cancelled => "CANCELLED"
    case Expired => "EXPIRED"
  }

  const STATUSES := [
    Draft, Submitted, UnderReview, Approved, SettlementInstructed, SettlementConfirmed, Reconciled, Closed,
    RequiresInformation, Held, Escalated, SettlementFailed, ReconciliationException, Rejected, Cancelled, Expired]

  function StatusFrom(candidates: seq<Status>, name: string): Option<Status> {
    if candidates == [] then None
    else if StatusName(candidates[0]) == name then Some(candidates[0])
    else StatusFrom(candidates[1..], name)
  }

  /** The status a log entry names. */
  function StatusNamed(name: string): Option<Status> {
    StatusFrom(STATUSES, name)
  }

  /** Length and second character tell the sixteen names apart. */
  function NamePrint(name: string): int {
    if |name| > 1 then |name| * 1000 + name[1] as int else 0
  }

  lemma NamesDistinct(s: Status, t: Status)
    requires StatusName(s) == StatusName(t)
    ensures s == t
  {
    assert NamePrint(StatusName(s)) == NamePrint(StatusName(t));
  }

  lemma {:induction false} StatusFromReads(candidates: seq<Status>, s: Status)
    requires s in candidates
    ensures StatusFrom(candidates, StatusName(s)) == Some(s)
  {
    hide StatusName;
    if StatusName(candidates[0]) == StatusName(s) {
      NamesDistinct(candidates[0], s);
    } else {
      StatusFromReads(candidates[1..], s);
    }
  }

  lemma StatusNameReads(s: Status)
    ensures StatusNamed(StatusName(s)) == Some(s)
  {
    hide StatusName, StatusFrom;
    assert STATUSES[0..8] + STATUSES[8..] == STATUSES;
    assert s in STATUSES;
    StatusFromReads(STATUSES, s);
  }

  function EventForTarget(target: Status): string {
    match target
    case Draft => "DRAW_POLICY_EVALUATED"
    case Submitted => "DRAW_SUBMITTED"
    case UnderReview => "DRAW_POLICY_EVALUATED"
    case RequiresInformation => "DRAW_REQUIRES_INFORMATION"
    case Held => "DRAW_HELD"
    case Escalated => "DRAW_ESCALATED"
    case Approved => "DRAW_APPROVED"
    case Rejected => "DRAW_REJECTED"
    case Cancelled => "DRAW_CANCELLED"
    case Expired => "DRAW_EXPIRED"
    case SettlementInstructed => "DRAW_SETTLEMENT_INSTRUCTED"
    case SettlementConfirmed => "DRAW_SETTLEMENT_CONFIRMED"
    case SettlementFailed => "DRAW_SETTLEMENT_FAILED"
    case Reconciled => "DRAW_RECONCILED"
    case ReconciliationException => "DRAW_RECONCILIATION_BREAK"
    case Closed => "DRAW_CLOSED"
  }

  // ---------------------------------------------------------------------------
  // Approval rules
  // ---------------------------------------------------------------------------

  datatype CovenantStatus = Current | Watch | Breached | CurePeriod

  datatype ApprovalContext = ApprovalContext(
    manifestComplete: bool,
    manifestItemExpiredOrUnverified: bool,
    remainingBudgetMinor: int,
    eligibleThisDrawMinor: int,
    retainageApplied: bool,
    covenantStatus: CovenantStatus,
    waiverCoversBreach: bool,
    loanInBalancePasses: bool,
    deficiencyDepositConfirmed: bool,
    requiredApprovalsRecorded: bool,
    approversDistinctFromRequester: bool,
    noApproverIsInstructor: bool,
    openHold: bool,
    payeeVerified: bool,
    sanctionsFresh: bool,
    settlementRouteValid: bool,
    policyVersionMatchesLock: bool,
    manifestHashMatchesLock: bool)

  datatype Failure =
    | ManifestIncomplete | ManifestItemInvalid | ApprovedAmountInvalid | ExceedsEligibleThisDraw | ExceedsRemainingBudget
    | RetainageNotApplied | CovenantBlocks | LoanInBalanceFail | ApprovalsIncomplete | SelfApproval | ApproverIsInstructor
    | OpenHold | PayeeNotVerified | SanctionsStale | SettlementRouteInvalid | PolicyLockMismatch | ManifestLockMismatch

  /** The rules that put their code on the draw's list of approval failures. */
  predicate Blocks(f: Failure, approved: Option<int>, requested: int, ctx: ApprovalContext) {
    match f
    case ManifestIncomplete => !ctx.manifestComplete
    case ManifestItemInvalid => ctx.manifestItemExpiredOrUnverified
    case ApprovedAmountInvalid => approved.None? || approved.value > requested
    case ExceedsEligibleThisDraw => approved.Some? && approved.value > ctx.eligibleThisDrawMinor
    case ExceedsRemainingBudget => approved.Some? && approved.value > ctx.remainingBudgetMinor
    case RetainageNotApplied => !ctx.retainageApplied
    case CovenantBlocks => (ctx.covenantStatus.Breached? || ctx.covenantStatus.CurePeriod?) && !ctx.waiverCoversBreach
    case LoanInBalanceFail => !ctx.loanInBalancePasses && !ctx.deficiencyDepositConfirmed
    case ApprovalsIncomplete => !ctx.requiredApprovalsRecorded
    case SelfApproval => !ctx.approversDistinctFromRequester
    case ApproverIsInstructor => !ctx.noApproverIsInstructor
    case OpenHold => ctx.openHold
    case PayeeNotVerified => !ctx.payeeVerified
    case SanctionsStale => !ctx.sanctionsFresh
    case SettlementRouteInvalid => !ctx.settlementRouteValid
    case PolicyLockMismatch => !ctx.policyVersionMatchesLock
    case ManifestLockMismatch => !ctx.manifestHashMatchesLock
  }

  // ---------------------------------------------------------------------------
  // Reading a draw's state out of the log
  // ---------------------------------------------------------------------------

  function TextOf(s: Option<Status>): Option<string> {
    match s
    case None => None
    case Some(t) => Some(StatusName(t))
  }

  /** An event that moves the draw `id` to a new state. */
  predicate Moves(row: Row, id: string) {
    row.envelope.aggregateId == id && row.envelope.stateAfter.Some?
  }

  /** From no state a draw is created as DRAFT; otherwise it follows the table. */
  predicate Follows(before: Option<Status>, after: Status) {
    match before
    case None => after == Draft
    case Some(s) => after in AllowedTransitions(s)
  }

  /** The state an event leads to, unless it does not continue from `before` along the table. */
  function Move(before: Option<Status>, row: Row): Option<Option<Status>>
    requires row.envelope.stateAfter.Some?
  {
    match StatusNamed(row.envelope.stateAfter.value)
    case None => None
    case Some(after) =>
      if row.envelope.stateBefore == TextOf(before) && Follows(before, after) then Some(Some(after)) else None
  }

  /** The state a draw is in after the logged events: `None` where they do not form a path from its creation. */
  function Replay(rows: seq<Row>, id: string): Option<Option<Status>> {
    if rows == [] then Some(None)
    else
      match Replay(Front(rows), id)
      case None => None
      case Some(before) => if Moves(Last(rows), id) then Move(before, Last(rows)) else Some(before)
  }

  lemma ReplayMove(rows: seq<Row>, row: Row, id: string, before: Option<Status>, after: Status)
    requires Replay(rows, id) == Some(before) && Moves(row, id) && Follows(before, after)
    requires row.envelope.stateBefore == TextOf(before) && row.envelope.stateAfter == Some(StatusName(after))
    ensures Replay(rows + [row], id) == Some(Some(after))
  {
    StatusNameReads(after);
    assert Front(rows + [row]) == rows;
  }

  lemma ReplayOther(rows: seq<Row>, row: Row, id: string)
    requires !Moves(row, id)
    ensures Replay(rows + [row], id) == Replay(rows, id)
  {
    assert Front(rows + [row]) == rows;
  }

  /** The states every path from creation to `s` goes through, `s` among them. */
  function OnEveryPathTo(s: Status): set<Status> {
    match s
    case Draft => {Draft}
    case Submitted => {Draft, Submitted}
    case UnderReview => {Draft, Submitted, UnderReview}
    case RequiresInformation => {Draft, Submitted, UnderReview, RequiresInformation}
    case Held => {Draft, Submitted, UnderReview, Held}
    case Escalated => {Draft, Submitted, UnderReview, Escalated}
    case Rejected => {Draft, Submitted, UnderReview, Rejected}
    case Expired => {Draft, Submitted, UnderReview, Expired}
    case Approved => {Draft, Submitted, UnderReview, Approved}
    case Cancelled => {Draft, Cancelled}
    case SettlementInstructed => {Draft, Submitted, UnderReview, Approved, SettlementInstructed}
    case SettlementFailed => {Draft, Submitted, UnderReview, Approved, SettlementInstructed, SettlementFailed}
    case SettlementConfirmed => {Draft, Submitted, UnderReview, Approved, SettlementInstructed, SettlementConfirmed}
    case ReconciliationException => {Draft, Submitted, UnderReview, Approved, SettlementInstructed, ReconciliationException}
    case Reconciled => {Draft, Submitted, UnderReview, Approved, SettlementInstructed, Reconciled}
    case Closed => {Draft, Submitted, UnderReview, Approved, SettlementInstructed, Reconciled, Closed}
  }

  lemma OnEveryPathStep(before: Option<Status>, after: Status, u: Status)
    requires Follows(before, after) && u in OnEveryPathTo(after) && u != after
    ensures before.Some? && u in OnEveryPathTo(before.value)
  {
  }

  /** At some point of the log the draw was in state `u`. */
  ghost predicate WasIn(rows: seq<Row>, id: string, u: Status) {
    exists k :: 0 <= k <= |rows| && Replay(rows[..k], id) == Some(Some(u))
  }

  lemma WasInLater(rows: seq<Row>, id: string, u: Status)
    requires rows != [] && WasIn(Front(rows), id, u)
    ensures WasIn(rows, id, u)
  {
    var k :| 0 <= k <= |Front(rows)| && Replay(Front(rows)[..k], id) == Some(Some(u));
    assert rows[..k] == Front(rows)[..k];
  }

  /** A draw whose log ends in `s` was earlier in each state every path to `s` goes through. */
  lemma {:induction false} LogPassesThrough(rows: seq<Row>, id: string, s: Status, u: Status)
    requires Replay(rows, id) == Some(Some(s)) && u in OnEveryPathTo(s)
    ensures WasIn(rows, id, u)
  {
    hide OnEveryPathTo, AllowedTransitions, StatusNamed, StatusName;
    assert rows[..|rows|] == rows;
    if u != s {
      var before := Replay(Front(rows), id).value;
      if Moves(Last(rows), id) {
        OnEveryPathStep(before, s, u);
      }
      LogPassesThrough(Front(rows), id, before.value, u);
      WasInLater(rows, id, u);
    } else {
      assert Replay(rows[..|rows|], id) == Some(Some(s));
    }
  }

  /** The states a draw can still reach once it has been instructed. */
  predicate AfterInstruction(s: Status) {
    s in {SettlementInstructed, SettlementConfirmed, SettlementFailed, ReconciliationException, Reconciled, Closed, Cancelled}
  }

  /** Once instructed, a draw is never reviewed or approved again. */
  lemma {:induction false} NoReviewAfterInstruction(rows: seq<Row>, id: string, k: nat, s: Status)
    requires k <= |rows| && WasInAt(rows, k, id, SettlementInstructed) && Replay(rows, id) == Some(Some(s))
    ensures AfterInstruction(s)
    decreases |rows|
  {
    hide StatusNamed, StatusName;
    if k < |rows| {
      var before := Replay(Front(rows), id).value;
      assert Front(rows)[..k] == rows[..k];
      ReplayPrefixHasState(Front(rows), id, k);
      NoReviewAfterInstruction(Front(rows), id, k, before.value);
    } else {
      assert rows[..k] == rows;
    }
  }

  ghost predicate WasInAt(rows: seq<Row>, k: nat, id: string, u: Status)
    requires k <= |rows|
  {
    Replay(rows[..k], id) == Some(Some(u))
  }

  /** A created draw keeps having a state. */
  lemma {:induction false} ReplayPrefixHasState(rows: seq<Row>, id: string, k: nat)
    requires k <= |rows| && Replay(rows, id).Some? && Replay(rows[..k], id).Some? && Replay(rows[..k], id).value.Some?
    ensures Replay(rows, id).value.Some?
  {
    hide StatusNamed, StatusName;
    if k < |rows| {
      assert Front(rows)[..k] == rows[..k];
      ReplayPrefixHasState(Front(rows), id, k);
    } else {
      assert rows[..k] == rows;
    }
  }
}
