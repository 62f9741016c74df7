/**
 * The persisted draw workflow of one tenant: its tables, and what each service
 * operation does to them. An operation that fails leaves no trace, so a failed
 * operation has no resulting state.
 */
module Workflow {
  import opened Ordering
  import opened Decimal
  import opened CanonicalJson
  import opened Ledger
  import opened DrawMachine
  import opened ConfirmationCsv

  datatype Error =
    | SessionRequired | InvalidMoney | IdempotencyKeyRequired | NotFound | RoleRequired | CurrencyMismatch
    | EvidenceEmpty | EvidenceFrozen | UploaderCannotVerify | OnlyRequesterSubmits | EvidenceRequired
    | PolicyVersionUnknown | InvalidTransition | InvalidState | ApprovalBlocked | RequesterCannotInstruct
    | ApproverCannotInstruct | CsvInvalid | BatchAlreadyStaged | BatchAlreadyImported
    | DualEntrySamePerson | DualEntryMismatch | ConcurrentChange | ConstraintViolated | LedgerRefused(why: Refusal)

  datatype Result<+T> = Ok(value: T) | Err(error: Error) {
    predicate IsFailure() { Err? }

    function PropagateFailure<U>(): Result<U>
      requires Err?
    {
      Err(error)
    }

    function Extract(): T
      requires Ok?
    {
      value
    }
  }

  // ---------------------------------------------------------------------------
  // The tables
  // ---------------------------------------------------------------------------

  datatype ReconciliationStatus = Pending | MatchedStatus | ExceptionStatus

  datatype DrawRequest = DrawRequest(
    id: string,
    dealId: string,
    spvId: string,
    requestNumber: string,
    status: Status,
    requestedBy: string,
    payeeCounterpartyId: string,
    payeeBankAccountId: string,
    amountRequested: int,
    amountApproved: Option<int>,
    currency: string,
    budgetLineIds: seq<string>,
    submittedAt: Option<string>,
    lockedPolicyVersion: Option<string>,
    lockedManifestHash: Option<string>,
    approvalBindingHash: Option<string>,
    policyEvaluationId: Option<string>,
    reconciliationStatus: ReconciliationStatus,
    idempotencyKey: string)

  datatype Document = Document(
    id: string,
    drawId: string,
    dealId: string,
    documentType: string,
    contentHash: string,
    version: nat,
    supersedes: Option<string>,
    uploadedBy: string,
    verified: bool)

  datatype Manifest = Manifest(documentIds: seq<string>, hash: string)

  datatype Evaluation = Evaluation(drawId: string, policyVersion: string, manifestHash: Option<string>, passed: bool)

  datatype Decision = Decision(
    drawId: string,
    approver: string,
    role: string,
    policyVersion: Option<string>,
    manifestHash: Option<string>,
    bindingHash: string,
    idempotencyKey: string)

  datatype InstructionStatus = Sent | ConfirmedByPartner

  datatype Instruction = Instruction(
    id: string,
    drawId: string,
    instructedBy: string,
    amount: int,
    currency: string,
    payeeBankAccountId: string,
    policyVersion: Option<string>,
    manifestHash: Option<string>,
    bindingHash: Option<string>,
    status: InstructionStatus,
    instructedAt: string,
    idempotencyKey: string)

  datatype Confirmation = Confirmation(
    id: string,
    instructionId: Option<string>,
    partner: string,
    reference: string,
    amount: int,
    currency: string,
    payeeAccountRef: string,
    settlementDate: string,
    rawHash: string,
    enteredBy: string,
    secondEntryBy: string)

  datatype Mismatch = Amount | Currency | Payee | Date | DuplicateReference | UnapprovedSettlement

  /** MATCHED exactly when there are no mismatch codes. */
  datatype ReconciliationRecord = ReconciliationRecord(
    drawId: Option<string>,
    instructionId: Option<string>,
    confirmationId: Option<string>,
    codes: seq<Mismatch>,
    reconciledBy: string)

  datatype Batch = Batch(csv: string, hash: string, subject: string)

  /** Instructions by partner and reference, which the database keeps unique. */
  datatype State = State(
    draws: map<string, DrawRequest>,
    documents: seq<Document>,
    manifests: map<string, Manifest>,
    evaluations: map<string, Evaluation>,
    decisions: seq<Decision>,
    instructions: map<(string, string), Instruction>,
    confirmations: seq<Confirmation>,
    records: seq<ReconciliationRecord>,
    batches: map<string, Batch>,
    chain: Chain)

  const INITIAL := State(map[], [], map[], map[], [], map[], [], [], map[], EMPTY)

  // ---------------------------------------------------------------------------
  // What surrounds the workflow
  // ---------------------------------------------------------------------------

  datatype PolicyPack = PolicyPack(
    requiredEvidence: seq<string>,
    requiredApprovals: nat,
    approverRoles: seq<string>,
    sanctionsMaxAge: int)

  /** What never changes: the tenant, the published policy packs and the hash. */
  datatype Config = Config(tenant: string, packs: map<string, PolicyPack>, sha: string -> string)

  datatype Deal = Deal(spvId: string, currency: string, policyVersion: string)

  datatype Account = Account(accountRef: string, currency: string, verified: bool, coolingEndsAt: Option<int>)

  datatype Counterparty = Counterparty(clear: bool, screenedAt: Option<int>)

  datatype Grant = Grant(subject: string, role: string, scope: Option<string>, isServiceAccount: bool)

  datatype HoldScope = TenantHold | DrawHold(id: string) | DealHold(id: string) | SpvHold(id: string) | CounterpartyHold(id: string)

  /** The rows the workflow only reads, the clock and the ids drawn, at the time of one operation. */
  datatype Env = Env(
    now: string,
    clock: int,
    id: (nat, nat) -> string,
    deals: map<string, Deal>,
    accounts: map<string, Account>,
    counterparties: map<string, Counterparty>,
    grants: set<Grant>,
    openHolds: set<HoldScope>)

  predicate HoldsRole(env: Env, subject: string, role: string, scopes: seq<string>) {
    exists g :: g in env.grants && g.subject == subject && g.role == role && (g.scope.None? || g.scope.value in scopes)
  }

  /** The first allowed role the subject holds tenant-wide or in one of the scopes. */
  function RequireRole(env: Env, subject: string, allowed: seq<string>, scopes: seq<string>): Result<string> {
    if allowed == [] then Err(RoleRequired)
    else if HoldsRole(env, subject, allowed[0], scopes) then Ok(allowed[0])
    else RequireRole(env, subject, allowed[1..], scopes)
  }

  predicate ServiceAccount(env: Env, subject: string) {
    exists g :: g in env.grants && g.subject == subject && g.isServiceAccount
  }

  predicate OpenHoldOn(env: Env, d: DrawRequest) {
    TenantHold in env.openHolds || DrawHold(d.id) in env.openHolds || DealHold(d.dealId) in env.openHolds
    || SpvHold(d.spvId) in env.openHolds || CounterpartyHold(d.payeeCounterpartyId) in env.openHolds
  }

  predicate PayeeVerified(env: Env, accountId: string) {
    accountId in env.accounts && env.accounts[accountId].verified
    && (env.accounts[accountId].coolingEndsAt.None? || env.accounts[accountId].coolingEndsAt.value <= env.clock)
  }

  predicate SanctionsFresh(env: Env, counterpartyId: string, maxAge: int) {
    counterpartyId in env.counterparties && env.counterparties[counterpartyId].clear
    && env.counterparties[counterpartyId].screenedAt.Some?
    && env.counterparties[counterpartyId].screenedAt.value > env.clock - maxAge
  }

  function ParseMinor(text: string): Option<nat> {
    if MinorText(text) then Some(NumeralValue(text)) else None
  }

  function Digest(cfg: Config, text: string): string {
    "sha256:" + cfg.sha(text)
  }

  function PackOf(cfg: Config, version: Option<string>): Result<PolicyPack> {
    if version.Some? && version.value in cfg.packs then Ok(cfg.packs[version.value]) else Err(PolicyVersionUnknown)
  }

  function TextOr(v: Option<string>): string {
    if v.Some? then v.value else ""
  }

  function Strings(texts: seq<string>): (items: seq<Json>)
    ensures |items| == |texts|
  {
    if texts == [] then [] else [Str(texts[0])] + Strings(texts[1..])
  }

  // ---------------------------------------------------------------------------
  // Writing the log, moving and saving a draw
  // ---------------------------------------------------------------------------

  predicate KeyUsed(rows: seq<Row>, key: string) {
    exists r :: r in rows && r.envelope.idempotencyKey == key
  }

  /** An event that moves no draw. */
  function PlainEvent(cfg: Config, subject: string, role: string, eventType: string, aggregateType: string, aggregateId: string,
                      key: string, payload: Json): AppendInput {
    AppendInput(eventType, cfg.tenant, subject, role, "", aggregateType, aggregateId, None, None, "", "",
                Some(payload), None, "", key, "")
  }

  /** The event of a move from `before` to `after`. */
  function MoveEvent(cfg: Config, subject: string, role: string, d: DrawRequest, before: Option<Status>, after: Status,
                     eventType: string, key: string, payload: Json): AppendInput {
    AppendInput(eventType, cfg.tenant, subject, role, "USER", "DRAW_REQUEST", d.id, TextOf(before), Some(StatusName(after)),
                TextOr(d.lockedPolicyVersion), TextOr(d.lockedManifestHash), Some(payload), None, "", key, d.id)
  }

  /** Appends an event to the tenant's chain; `at` picks its id. */
  function Log(cfg: Config, s: State, env: Env, at: (nat, nat), input: AppendInput): Result<State> {
    match AppendTo(cfg.sha, s.chain, cfg.tenant, input, Stamp(env.id(at.0, at.1), env.now, env.now), true)
    case Stored(chain, _) => Ok(s.(chain := chain))
    case Refused(why) => Err(LedgerRefused(why))
  }

  /** Checks a move against the table and the approval rules, logs it, and gives the moved draw, not yet saved. */
  function TransitionDraw(cfg: Config, s: State, env: Env, at: (nat, nat), d: DrawRequest, target: Status,
                          subject: string, role: string, ctx: Option<ApprovalContext>, key: string, payload: Json)
    : Result<(State, DrawRequest)>
  {
    if target !in AllowedTransitions(d.status) then Err(InvalidTransition)
    else if target.Approved? && (ctx.None? || exists f: Failure :: Blocks(f, d.amountApproved, d.amountRequested, ctx.value)) then
      Err(ApprovalBlocked)
    else
      var s1 :- Log(cfg, s, env, at, MoveEvent(cfg, subject, role, d, Some(d.status), target, EventForTarget(target), key, payload));
      Ok((s1, d.(status := target,
                 submittedAt := if target.Submitted? && d.submittedAt.None? then Some(env.now) else d.submittedAt)))
  }

  predicate PastApproval(s: Status) {
    s in {Approved, SettlementInstructed, SettlementConfirmed, SettlementFailed, ReconciliationException, Reconciled, Closed}
  }

  /** The checks the database puts on a draw row. */
  predicate RowChecks(d: DrawRequest) {
    d.amountRequested > 0
    && (d.status.Draft? || (d.submittedAt.Some? && d.lockedPolicyVersion.Some? && d.lockedManifestHash.Some?))
    && (PastApproval(d.status) ==> d.amountApproved.Some? && d.approvalBindingHash.Some?)
    && (d.amountApproved.Some? ==> 0 < d.amountApproved.value <= d.amountRequested)
    && !d.status.Held? && !d.status.RequiresInformation?
    && (d.status.Reconciled? || d.status.Closed? ==> d.reconciliationStatus.MatchedStatus?)
    && (d.status.ReconciliationException? ==> d.reconciliationStatus.ExceptionStatus?)
  }

  /** Locked values and the requester never change. */
  predicate LocksKept(before: DrawRequest, after: DrawRequest) {
    (before.lockedPolicyVersion.Some? ==> after.lockedPolicyVersion == before.lockedPolicyVersion)
    && (before.lockedManifestHash.Some? ==> after.lockedManifestHash == before.lockedManifestHash)
    && before.requestedBy == after.requestedBy
  }

  /** Updates the row, provided it is still in the state the operation read. */
  function SaveDraw(s: State, before: DrawRequest, next: DrawRequest): Result<State> {
    if before.id !in s.draws || s.draws[before.id].status != before.status then Err(ConcurrentChange)
    else
      var row := s.draws[before.id].(
        status := next.status, amountApproved := next.amountApproved, submittedAt := next.submittedAt,
        lockedPolicyVersion := next.lockedPolicyVersion, lockedManifestHash := next.lockedManifestHash,
        approvalBindingHash := next.approvalBindingHash, policyEvaluationId := next.policyEvaluationId,
        reconciliationStatus := next.reconciliationStatus);
      if !RowChecks(row) || !LocksKept(s.draws[before.id], row) then Err(ConstraintViolated)
      else Ok(s.(draws := s.draws[before.id := row]))
  }

  // ---------------------------------------------------------------------------
  // Creating a draw
  // ---------------------------------------------------------------------------

  datatype DraftInput = DraftInput(
    dealId: string,
    requestNumber: string,
    payeeCounterpartyId: string,
    payeeBankAccountId: string,
    amountRequested: string,
    currency: string,
    budgetLineIds: seq<string>,
    idempotencyKey: string)

  predicate DrawWithKey(draws: map<string, DrawRequest>, key: string) {
    exists id :: id in draws && draws[id].idempotencyKey == key
  }

  predicate NumberTaken(draws: map<string, DrawRequest>, requestNumber: string) {
    exists id :: id in draws && draws[id].requestNumber == requestNumber
  }

  function NewDraw(env: Env, subject: string, spvId: string, input: DraftInput, amount: int): DrawRequest {
    DrawRequest(env.id(0, 0), input.dealId, spvId, input.requestNumber, Draft, subject, input.payeeCounterpartyId,
                input.payeeBankAccountId, amount, None, input.currency, input.budgetLineIds, None, None, None, None, None,
                Pending, input.idempotencyKey)
  }

  function CreatedPayload(input: DraftInput, amount: nat): Json {
    Obj([ Member("deal_id", Str(input.dealId)),
          Member("request_number", Str(input.requestNumber)),
          Member("amount_requested_minor", Str(Numeral(amount))),
          Member("currency", Str(input.currency)),
          Member("payee_bank_account_id", Str(input.payeeBankAccountId)) ])
  }

  /** The database's checks on inserting a draw. */
  predicate Insertable(s: State, env: Env, d: DrawRequest) {
    RowChecks(d) && d.id !in s.draws && !NumberTaken(s.draws, d.requestNumber)
    && d.payeeCounterpartyId in env.counterparties && d.payeeBankAccountId in env.accounts
  }

  function CreateDraft(cfg: Config, s: State, env: Env, subject: string, input: DraftInput): Result<State> {
    match ParseMinor(input.amountRequested)
    case None => Err(InvalidMoney)
    case Some(amount) =>
      if subject == "" then Err(SessionRequired)
      else if input.idempotencyKey == "" then Err(IdempotencyKeyRequired)
      else if DrawWithKey(s.draws, input.idempotencyKey) then Ok(s)
      else
        var role :- RequireRole(env, subject, ["BorrowerSponsor", "OperationsOwner"], [input.dealId]);
        if input.dealId !in env.deals then Err(NotFound)
        else if env.deals[input.dealId].currency != input.currency then Err(CurrencyMismatch)
        else
          var d := NewDraw(env, subject, env.deals[input.dealId].spvId, input, amount);
          var created := PlainEvent(cfg, subject, role, "DRAW_CREATED", "DRAW_REQUEST", d.id, input.idempotencyKey,
                                    CreatedPayload(input, amount)).(stateAfter := Some("DRAFT"));
          var s1 :- Log(cfg, s, env, (0, 1), created);
          if !Insertable(s, env, d) then Err(ConstraintViolated)
          else Ok(s1.(draws := s1.draws[d.id := d]))
  }

  // ---------------------------------------------------------------------------
  // Evidence
  // ---------------------------------------------------------------------------

  const DOCUMENT_TYPES := {
    "INVOICE", "INSPECTION_REPORT", "MILESTONE_ATTESTATION", "LIEN_WAIVER", "BORROWER_ATTESTATION", "BUDGET_SUPPORT",
    "CHANGE_ORDER_SUPPORT", "COLLATERAL_UPDATE", "INSURANCE_EVIDENCE", "EXECUTED_CONTRACT", "TITLE_OR_LEGAL",
    "KYC_AML_STATUS", "SANCTIONS_RESULT", "PAYEE_ACCOUNT_SUPPORT", "SETTLEMENT_INSTRUCTION_SUPPORT"}

  datatype UploadInput = UploadInput(drawId: string, documentType: string, content: string, idempotencyKey: string)

  /** The document of this draw and type with the highest version. */
  function Latest(documents: seq<Document>, drawId: string, documentType: string): Option<Document> {
    if documents == [] then None
    else
      var d := documents[|documents| - 1];
      var earlier := Latest(documents[..|documents| - 1], drawId, documentType);
      if d.drawId == drawId && d.documentType == documentType && (earlier.None? || earlier.value.version <= d.version) then Some(d)
      else earlier
  }

  predicate DocumentExists(documents: seq<Document>, id: string) {
    exists i :: 0 <= i < |documents| && documents[i].id == id
  }

  predicate HasContent(documents: seq<Document>, drawId: string, contentHash: string) {
    exists i :: 0 <= i < |documents| && documents[i].drawId == drawId && documents[i].contentHash == contentHash
  }

  function UploadedPayload(d: Document): Json {
    Obj([ Member("document_id", Str(d.id)),
          Member("document_type", Str(d.documentType)),
          Member("content_hash", Str(d.contentHash)),
          Member("version", Num(Numeral(d.version))),
          Member("supersedes_id", Nullable(d.supersedes)) ])
  }

  function NewDocument(cfg: Config, s: State, env: Env, subject: string, d: DrawRequest, input: UploadInput): Document {
    var prior := Latest(s.documents, d.id, input.documentType);
    Document(env.id(0, 0), d.id, d.dealId, input.documentType, Digest(cfg, input.content),
             if prior.Some? then prior.value.version + 1 else 1, if prior.Some? then Some(prior.value.id) else None,
             subject, false)
  }

  function UploadEvidence(cfg: Config, s: State, env: Env, subject: string, input: UploadInput): Result<State> {
    if input.content == "" then Err(EvidenceEmpty)
    else if subject == "" then Err(SessionRequired)
    else if input.idempotencyKey == "" then Err(IdempotencyKeyRequired)
    else if KeyUsed(s.chain.rows, input.idempotencyKey) then
      if HasContent(s.documents, input.drawId, Digest(cfg, input.content)) then Ok(s) else Err(NotFound)
    else if input.drawId !in s.draws then Err(NotFound)
    else
      var d := s.draws[input.drawId];
      var role :- RequireRole(env, subject, ["BorrowerSponsor", "Inspector", "OperationsOwner"], [d.dealId]);
      if !d.status.Draft? then Err(EvidenceFrozen)
      else
        var doc := NewDocument(cfg, s, env, subject, d, input);
        var eventType := if doc.supersedes.Some? then "EVIDENCE_SUPERSEDED" else "EVIDENCE_UPLOADED";
        var s1 :- Log(cfg, s, env, (0, 1), PlainEvent(cfg, subject, role, eventType, "DRAW_REQUEST", d.id, input.idempotencyKey,
                                                     UploadedPayload(doc)));
        if DocumentExists(s.documents, doc.id) || doc.documentType !in DOCUMENT_TYPES then Err(ConstraintViolated)
        else Ok(s1.(documents := s1.documents + [doc]))
  }

  function FindDocument(documents: seq<Document>, id: string): (r: Option<nat>)
    ensures r.Some? ==> r.value < |documents| && documents[r.value].id == id
    ensures r.None? ==> !DocumentExists(documents, id)
  {
    if documents == [] then None
    else if documents[|documents| - 1].id == id then Some(|documents| - 1)
    else FindDocument(documents[..|documents| - 1], id)
  }

  function VerifiedPayload(documentId: string, contentHash: string): Json {
    Obj([Member("document_id", Str(documentId)), Member("content_hash", Str(contentHash))])
  }

  function VerifyEvidence(cfg: Config, s: State, env: Env, subject: string, documentId: string, key: string): Result<State> {
    if subject == "" then Err(SessionRequired)
    else if key == "" then Err(IdempotencyKeyRequired)
    else if KeyUsed(s.chain.rows, key) then Ok(s)
    else
      match FindDocument(s.documents, documentId)
      case None => Err(NotFound)
      case Some(i) =>
        var doc := s.documents[i];
        var role :- RequireRole(env, subject, ["OperationsOwner", "Inspector", "Underwriter", "RiskOwner"], [doc.dealId]);
        if doc.uploadedBy == subject then Err(UploaderCannotVerify)
        else
          var s1 :- Log(cfg, s, env, (0, 1), PlainEvent(cfg, subject, role, "EVIDENCE_VERIFIED", "DRAW_REQUEST", doc.drawId, key,
                                                       VerifiedPayload(documentId, doc.contentHash)));
          Ok(s1.(documents := s1.documents[i := doc.(verified := true)]))
  }

  // ---------------------------------------------------------------------------
  // Submission: freezing the evidence and the policy
  // ---------------------------------------------------------------------------

  predicate Superseded(documents: seq<Document>, id: string) {
    exists i :: 0 <= i < |documents| && documents[i].supersedes == Some(id)
  }

  /** The draw's documents among the first ones that no document of the table supersedes. */
  function HeadsAmong(table: seq<Document>, documents: seq<Document>, drawId: string): seq<Document> {
    if documents == [] then []
    else
      var d := documents[|documents| - 1];
      HeadsAmong(table, documents[..|documents| - 1], drawId)
        + if d.drawId == drawId && !Superseded(table, d.id) then [d] else []
  }

  function DocumentId(d: Document): string { d.id }

  /** The latest version of each document of the draw, in id order. */
  function CurrentDocuments(documents: seq<Document>, drawId: string): seq<Document> {
    SortBy(HeadsAmong(documents, documents, drawId), DocumentId)
  }

  function ItemJson(d: Document): Json {
    Obj([ Member("document_id", Str(d.id)),
          Member("document_type", Str(d.documentType)),
          Member("content_hash", Str(d.contentHash)),
          Member("version", Num(Numeral(d.version))) ])
  }

  function ItemsJson(documents: seq<Document>): (items: seq<Json>)
    ensures |items| == |documents|
  {
    if documents == [] then [] else [ItemJson(documents[0])] + ItemsJson(documents[1..])
  }

  function ManifestHash(cfg: Config, documents: seq<Document>): string {
    Digest(cfg, AuditText(Arr(ItemsJson(documents))))
  }

  function Ids(documents: seq<Document>): (r: seq<string>)
    ensures |r| == |documents|
  {
    if documents == [] then [] else [documents[0].id] + Ids(documents[1..])
  }

  function SubmittedPayload(hash: string, policyVersion: string, documents: seq<Document>): Json {
    Obj([ Member("manifest_hash", Str(hash)),
          Member("policy_version", Str(policyVersion)),
          Member("documents", Arr(ItemsJson(documents))) ])
  }

  function Submit(cfg: Config, s: State, env: Env, subject: string, drawId: string, key: string): Result<State> {
    if subject == "" then Err(SessionRequired)
    else if key == "" then Err(IdempotencyKeyRequired)
    else if drawId !in s.draws then Err(NotFound)
    else if KeyUsed(s.chain.rows, key) then Ok(s)
    else
      var d := s.draws[drawId];
      if d.requestedBy != subject then Err(OnlyRequesterSubmits)
      else
        var documents := CurrentDocuments(s.documents, drawId);
        if documents == [] then Err(EvidenceRequired)
        else if d.dealId !in env.deals then Err(NotFound)
        else
          var hash := ManifestHash(cfg, documents);
          var policyVersion := env.deals[d.dealId].policyVersion;
          var _ :- PackOf(cfg, Some(policyVersion));
          var locked := d.(lockedPolicyVersion := Some(policyVersion), lockedManifestHash := Some(hash));
          var (s1, next) :- TransitionDraw(cfg, s, env, (0, 1), locked, Submitted, subject, "Requester", None, key,
                                           SubmittedPayload(hash, policyVersion, documents));
          if drawId in s1.manifests then Err(ConstraintViolated)
          else SaveDraw(s1.(manifests := s1.manifests[drawId := Manifest(Ids(documents), hash)]), d, next)
  }

  // ---------------------------------------------------------------------------
  // Policy evaluation
  // ---------------------------------------------------------------------------

  /** Some document of the draw's frozen manifest has this type. */
  predicate InManifest(s: State, drawId: string, documentType: string) {
    drawId in s.manifests &&
    exists i :: 0 <= i < |s.documents| && s.documents[i].id in s.manifests[drawId].documentIds && s.documents[i].documentType == documentType
  }

  predicate ManifestComplete(s: State, drawId: string, pack: PolicyPack) {
    forall i :: 0 <= i < |pack.requiredEvidence| ==> InManifest(s, drawId, pack.requiredEvidence[i])
  }

  predicate ManifestVerified(s: State, drawId: string) {
    drawId in s.manifests ==>
      forall i :: 0 <= i < |s.documents| && s.documents[i].id in s.manifests[drawId].documentIds ==> s.documents[i].verified
  }

  function RuleResults(s: State, drawId: string, required: seq<string>): (items: seq<Json>)
    ensures |items| == |required|
  {
    if required == [] then []
    else
      [ if InManifest(s, drawId, required[0]) then
          Obj([Member("rule", Str("REQUIRED_EVIDENCE")), Member("subject", Str(required[0])), Member("result", Str("PASS"))])
        else
          Obj([ Member("rule", Str("REQUIRED_EVIDENCE")), Member("subject", Str(required[0])), Member("result", Str("FAIL")),
                Member("reason_code", Str("EVIDENCE_MISSING")),
                Member("reason_text", Str(required[0] + " is not in the frozen manifest")) ])
      ] + RuleResults(s, drawId, required[1..])
  }

  function EvaluatedPayload(s: State, drawId: string, evaluationId: string, pack: PolicyPack): Json {
    Obj([ Member("policy_evaluation_id", Str(evaluationId)),
          Member("result", Str(if ManifestComplete(s, drawId, pack) then "PASS" else "HOLD")),
          Member("rule_results", Arr(RuleResults(s, drawId, pack.requiredEvidence))) ])
  }

  function Evaluate(cfg: Config, s: State, env: Env, subject: string, drawId: string, key: string): Result<State> {
    if subject == "" then Err(SessionRequired)
    else if key == "" then Err(IdempotencyKeyRequired)
    else if drawId !in s.draws then Err(NotFound)
    else if KeyUsed(s.chain.rows, key) then Ok(s)
    else
      var d := s.draws[drawId];
      var role :- RequireRole(env, subject, ["OperationsOwner", "RiskOwner", "Underwriter", "LenderAdmin"], [d.dealId]);
      var pack :- PackOf(cfg, d.lockedPolicyVersion);
      var id := env.id(0, 0);
      var (s1, next) :- TransitionDraw(cfg, s, env, (0, 1), d, UnderReview, subject, role, None, key, EvaluatedPayload(s, drawId, id, pack));
      if id in s1.evaluations then Err(ConstraintViolated)
      else
        var evaluation := Evaluation(drawId, d.lockedPolicyVersion.value, d.lockedManifestHash, ManifestComplete(s, drawId, pack));
        SaveDraw(s1.(evaluations := s1.evaluations[id := evaluation]), d, next.(policyEvaluationId := Some(id)))
  }

  // ---------------------------------------------------------------------------
  // Approval
  // ---------------------------------------------------------------------------

  /** What the approver states because no table holds it yet. */
  datatype Controls = Controls(
    remainingBudget: string,
    eligibleThisDraw: string,
    retainageApplied: bool,
    covenantStatus: CovenantStatus,
    waiverCoversBreach: bool,
    loanInBalancePasses: bool,
    deficiencyDepositConfirmed: bool)

  datatype ApproveInput = ApproveInput(drawId: string, amountApproved: string, controls: Controls, idempotencyKey: string)

  function Itself(t: string): string { t }

  function BindingMembers(d: DrawRequest, amount: nat): (ms: seq<Member>)
    ensures |ms| == 6
  {
    [ Member("amount_approved_minor", Str(Numeral(amount))),
      Member("currency", Str(d.currency)),
      Member("payee_bank_account_id", Str(d.payeeBankAccountId)),
      Member("evidence_manifest_hash", Nullable(d.lockedManifestHash)),
      Member("policy_version", Nullable(d.lockedPolicyVersion)),
      Member("budget_line_ids", Arr(Strings(SortBy(d.budgetLineIds, Itself)))) ]
  }

  /** What an approval of this amount binds. */
  function BindingHash(cfg: Config, d: DrawRequest, amount: nat): string {
    Digest(cfg, AuditText(Obj(BindingMembers(d, amount))))
  }

  /** Those who approved the draw under this binding. */
  function Approvers(decisions: seq<Decision>, drawId: string, bindingHash: string): set<string> {
    set i | 0 <= i < |decisions| && decisions[i].drawId == drawId && decisions[i].bindingHash == bindingHash :: decisions[i].approver
  }

  predicate Decided(decisions: seq<Decision>, drawId: string, approver: string) {
    exists i :: 0 <= i < |decisions| && decisions[i].drawId == drawId && decisions[i].approver == approver
  }

  function CovenantName(c: CovenantStatus): string {
    match c
    case Current => "CURRENT"
    case Watch => "WATCH"
    case Breached => "BREACHED"
    case CurePeriod => "CURE_PERIOD"
  }

  function DecisionPayload(bindingHash: string, amount: nat, c: Controls): Json {
    Obj([ Member("approval_binding_hash", Str(bindingHash)),
          Member("amount_approved_minor", Str(Numeral(amount))),
          Member("controls", Obj([
            Member("remainingBudgetMinor", Str(c.remainingBudget)),
            Member("eligibleThisDrawMinor", Str(c.eligibleThisDraw)),
            Member("retainageApplied", Bool(c.retainageApplied)),
            Member("covenantStatus", Str(CovenantName(c.covenantStatus))),
            Member("waiverCoversBreach", Bool(c.waiverCoversBreach)),
            Member("loanInBalancePasses", Bool(c.loanInBalancePasses)),
            Member("deficiencyDepositConfirmed", Bool(c.deficiencyDepositConfirmed))])) ])
  }

  function ContextOf(s: State, env: Env, subject: string, d: DrawRequest, pack: PolicyPack, bindingHash: string,
                     remaining: int, eligible: int, c: Controls): ApprovalContext {
    var approvers := Approvers(s.decisions, d.id, bindingHash) + {subject};
    ApprovalContext(
      ManifestComplete(s, d.id, pack),
      !ManifestVerified(s, d.id),
      remaining,
      eligible,
      c.retainageApplied,
      c.covenantStatus,
      c.waiverCoversBreach,
      c.loanInBalancePasses,
      c.deficiencyDepositConfirmed,
      |approvers| >= pack.requiredApprovals,
      d.requestedBy !in approvers,
      true,
      OpenHoldOn(env, d),
      PayeeVerified(env, d.payeeBankAccountId),
      SanctionsFresh(env, d.payeeCounterpartyId, pack.sanctionsMaxAge),
      d.payeeBankAccountId in env.accounts && env.accounts[d.payeeBankAccountId].currency == d.currency,
      d.policyEvaluationId.Some? && d.policyEvaluationId.value in s.evaluations
        && Some(s.evaluations[d.policyEvaluationId.value].policyVersion) == d.lockedPolicyVersion,
      d.id in s.manifests && Some(s.manifests[d.id].hash) == d.lockedManifestHash)
  }

  /** The database's checks on inserting a decision: one per approver and binding, never the requester or a service account. */
  predicate DecisionAllowed(s: State, env: Env, d: DrawRequest, decision: Decision) {
    decision.approver != d.requestedBy && !ServiceAccount(env, decision.approver)
    && decision.policyVersion == d.lockedPolicyVersion && decision.manifestHash == d.lockedManifestHash
    && forall i :: 0 <= i < |s.decisions| ==>
         s.decisions[i].idempotencyKey != decision.idempotencyKey
         && (s.decisions[i].drawId != decision.drawId || s.decisions[i].approver != decision.approver
             || s.decisions[i].bindingHash != decision.bindingHash)
  }

  function InsertDecision(s: State, env: Env, d: DrawRequest, decision: Decision): Result<State> {
    if DecisionAllowed(s, env, d, decision) then Ok(s.(decisions := s.decisions + [decision])) else Err(ConstraintViolated)
  }

  function Approve(cfg: Config, s: State, env: Env, subject: string, input: ApproveInput): Result<State> {
    match (ParseMinor(input.amountApproved), ParseMinor(input.controls.remainingBudget), ParseMinor(input.controls.eligibleThisDraw))
    case (Some(amount), Some(remaining), Some(eligible)) =>
      if subject == "" then Err(SessionRequired)
      else if input.idempotencyKey == "" then Err(IdempotencyKeyRequired)
      else if input.drawId !in s.draws then Err(NotFound)
      else if KeyUsed(s.chain.rows, input.idempotencyKey) then Ok(s)
      else
        var d := s.draws[input.drawId];
        if !d.status.UnderReview? then Err(InvalidState)
        else
          var pack :- PackOf(cfg, d.lockedPolicyVersion);
          var role :- RequireRole(env, subject, pack.approverRoles, [d.dealId, d.spvId]);
          var hash := BindingHash(cfg, d, amount);
          var candidate := d.(amountApproved := Some(amount), approvalBindingHash := Some(hash));
          var ctx := ContextOf(s, env, subject, d, pack, hash, remaining, eligible, input.controls);
          var decision := Decision(d.id, subject, role, d.lockedPolicyVersion, d.lockedManifestHash, hash, input.idempotencyKey);
          var payload := DecisionPayload(hash, amount, input.controls);
          if exists f: Failure :: !f.ApprovalsIncomplete? && Blocks(f, Some(amount), d.amountRequested, ctx) then Err(ApprovalBlocked)
          else if Blocks(ApprovalsIncomplete, Some(amount), d.amountRequested, ctx) then
            // only more approvers are missing: the decision is recorded and the draw stays where it is
            var recorded := PlainEvent(cfg, subject, role, "APPROVAL_RECORDED", "DRAW_REQUEST", d.id, input.idempotencyKey, payload)
              .(policyVersion := TextOr(d.lockedPolicyVersion), evidenceManifestHash := TextOr(d.lockedManifestHash));
            var s1 :- Log(cfg, s, env, (0, 1), recorded);
            InsertDecision(s1, env, d, decision)
          else
            var (s1, next) :- TransitionDraw(cfg, s, env, (0, 1), candidate, Approved, subject, role, Some(ctx), input.idempotencyKey, payload);
            var s2 :- InsertDecision(s1, env, d, decision);
            SaveDraw(s2, d, next)
    case _ => Err(InvalidMoney)
  }

  // ---------------------------------------------------------------------------
  // Settlement instruction
  // ---------------------------------------------------------------------------

  datatype InstructInput = InstructInput(drawId: string, externalPartnerId: string, settlementReference: string, idempotencyKey: string)

  function InstructedPayload(d: DrawRequest, input: InstructInput): Json {
    Obj([ Member("external_partner_id", Str(input.externalPartnerId)),
          Member("settlement_reference", Str(input.settlementReference)),
          Member("amount_minor", if d.amountApproved.Some? && d.amountApproved.value >= 0 then Str(Numeral(d.amountApproved.value)) else Null),
          Member("currency", Str(d.currency)),
          Member("payee_bank_account_id", Str(d.payeeBankAccountId)),
          Member("approval_binding_hash", Nullable(d.approvalBindingHash)) ])
  }

  /** Only a treasury owner who is neither requester nor approver, a verified payee, no hold, and no other live instruction. */
  predicate InstructionAllowed(s: State, env: Env, d: DrawRequest, partner: string, reference: string, instruction: Instruction) {
    (d.status.Approved? || d.status.SettlementFailed?)
    && instruction.instructedBy != d.requestedBy && !Decided(s.decisions, d.id, instruction.instructedBy)
    && (exists g :: g in env.grants && g.subject == instruction.instructedBy && g.role == "TreasuryOwner" && !g.isServiceAccount)
    && instruction.amount > 0 && PayeeVerified(env, d.payeeBankAccountId) && !OpenHoldOn(env, d)
    && (partner, reference) !in s.instructions
    && (forall k :: k in s.instructions ==>
          s.instructions[k].id != instruction.id && s.instructions[k].drawId != d.id
          && s.instructions[k].idempotencyKey != instruction.idempotencyKey)
  }

  function Instruct(cfg: Config, s: State, env: Env, subject: string, input: InstructInput): Result<State> {
    if subject == "" then Err(SessionRequired)
    else if input.idempotencyKey == "" then Err(IdempotencyKeyRequired)
    else if input.drawId !in s.draws then Err(NotFound)
    else if KeyUsed(s.chain.rows, input.idempotencyKey) then Ok(s)
    else
      var d := s.draws[input.drawId];
      var role :- RequireRole(env, subject, ["TreasuryOwner"], [d.dealId, d.spvId]);
      if subject == d.requestedBy then Err(RequesterCannotInstruct)
      else if Decided(s.decisions, d.id, subject) then Err(ApproverCannotInstruct)
      else
        var (s1, next) :- TransitionDraw(cfg, s, env, (0, 1), d, SettlementInstructed, subject, role, None, input.idempotencyKey,
                                         InstructedPayload(d, input));
        if d.amountApproved.None? then Err(ConstraintViolated)
        else
          var instruction := Instruction(env.id(0, 0), d.id, subject, d.amountApproved.value, d.currency, d.payeeBankAccountId,
                                         d.lockedPolicyVersion, d.lockedManifestHash, d.approvalBindingHash, Sent, env.now,
                                         input.idempotencyKey);
          if !InstructionAllowed(s1, env, d, input.externalPartnerId, input.settlementReference, instruction) then Err(ConstraintViolated)
          else
            SaveDraw(s1.(instructions := s1.instructions[(input.externalPartnerId, input.settlementReference) := instruction]), d, next)
  }

  // ---------------------------------------------------------------------------
  // Settlement confirmations by CSV
  // ---------------------------------------------------------------------------

  const CSV_ENTRY_ROLES := ["TreasuryOwner", "OperationsOwner", "FundAdministrator", "RiskOwner"]

  function StagedPayload(hash: string, rows: nat): Json {
    Obj([Member("first_entry_hash", Str(hash)), Member("rows", Num(Numeral(rows)))])
  }

  /** The first person's entry of a batch. */
  function StageCsv(cfg: Config, s: State, env: Env, subject: string, batchKey: string, csv: string): Result<State> {
    match ParseConfirmationCsv(csv)
    case None => Err(CsvInvalid)
    case Some(rows) =>
      var hash := Digest(cfg, csv);
      if subject == "" then Err(SessionRequired)
      else if batchKey == "" then Err(IdempotencyKeyRequired)
      else if batchKey in s.batches then
        if s.batches[batchKey].subject == subject && s.batches[batchKey].hash == hash then Ok(s) else Err(BatchAlreadyStaged)
      else
        var role :- RequireRole(env, subject, CSV_ENTRY_ROLES, []);
        var s1 :- Log(cfg, s, env, (0, 1), PlainEvent(cfg, subject, role, "CSV_BATCH_STAGED", "SETTLEMENT_CONFIRMATION", batchKey,
                                                     batchKey + ":staged", StagedPayload(hash, |rows|)));
        Ok(s1.(batches := s1.batches[batchKey := Batch(csv, hash, subject)]))
  }

  datatype RowResult = RowResult(line: nat, partner: string, reference: string, drawId: Option<string>, codes: seq<Mismatch>)

  /** The import's own idempotency keys: batch, row number, purpose. */
  function RowKey(batchKey: string, row: nat, suffix: string): string {
    batchKey + ":" + Numeral(row) + ":" + suffix
  }

  function MismatchName(m: Mismatch): string {
    match m
    case Amount => "AMOUNT"
    case Currency => "CURRENCY"
    case Payee => "PAYEE"
    case Date => "DATE"
    case DuplicateReference => "DUPLICATE_REFERENCE"
    case UnapprovedSettlement => "UNAPPROVED_SETTLEMENT"
  }

  function CodesJson(codes: seq<Mismatch>): Json {
    Arr(Strings(seq(|codes|, i requires 0 <= i < |codes| => MismatchName(codes[i]))))
  }

  function BreakPayload(codes: seq<Mismatch>, row: CsvRow): Json {
    Obj([Member("mismatch_codes", CodesJson(codes)), Member("row", RowJson(row))])
  }

  /** Who imports a batch, under which role, and which row of it is at hand. */
  datatype ImportContext = ImportContext(entrant: string, confirmer: string, role: string, batchKey: string, index: nat)

  predicate ReferenceConfirmed(confirmations: seq<Confirmation>, partner: string, reference: string) {
    exists i :: 0 <= i < |confirmations| && confirmations[i].partner == partner && confirmations[i].reference == reference
  }

  predicate ConfirmationExists(confirmations: seq<Confirmation>, id: string) {
    exists i :: 0 <= i < |confirmations| && confirmations[i].id == id
  }

  function DaysInMonth(year: nat, month: nat): nat {
    if month in {4, 6, 9, 11} then 30
    else if month != 2 then 31
    else if year % 4 == 0 && (year % 100 != 0 || year % 400 == 0) then 29
    else 28
  }

  /** What the database's date type takes of the dates the CSV lets through. */
  predicate CalendarDate(t: string) {
    DateText(t) &&
    var year, month, day := NumeralValue(t[0..4]), NumeralValue(t[5..7]), NumeralValue(t[8..10]);
    year > 0 && 1 <= month <= 12 && 1 <= day <= DaysInMonth(year, month)
  }

  function NewConfirmation(cfg: Config, env: Env, ic: ImportContext, row: CsvRow, instructionId: Option<string>): Confirmation {
    Confirmation(env.id(ic.index, 0), instructionId, row.externalPartnerId, row.settlementReference,
                 if MinorText(row.amountMinor) then NumeralValue(row.amountMinor) else 0, row.currency, row.payeeAccountRef,
                 row.settlementDate, Digest(cfg, AuditText(RowJson(row))), ic.entrant, ic.confirmer)
  }

  function InsertConfirmation(s: State, c: Confirmation): Result<State> {
    if c.amount > 0 && CalendarDate(c.settlementDate) && c.enteredBy != c.secondEntryBy && !ConfirmationExists(s.confirmations, c.id) then
      Ok(s.(confirmations := s.confirmations + [c]))
    else Err(ConstraintViolated)
  }

  /** The event of a break, filed under its draw where there is one. */
  function BreakEvent(cfg: Config, ic: ImportContext, row: CsvRow, drawId: Option<string>, codes: seq<Mismatch>): AppendInput {
    PlainEvent(cfg, ic.entrant, ic.role, "DRAW_RECONCILIATION_BREAK",
               if TextOr(drawId) != "" then "DRAW_REQUEST" else "RECONCILIATION_RECORD",
               Or(TextOr(drawId), row.externalPartnerId + ":" + row.settlementReference),
               RowKey(ic.batchKey, ic.index + 1, "break"), BreakPayload(codes, row))
  }

  /** Logs a break, inserts the confirmation that goes with it, if any, and records the exception. */
  function RecordException(cfg: Config, s: State, env: Env, ic: ImportContext, row: CsvRow, drawId: Option<string>, instructionId: Option<string>,
                           confirmation: Option<Confirmation>, codes: seq<Mismatch>): Result<(State, RowResult)> {
    var s1 :- Log(cfg, s, env, (ic.index, 1), BreakEvent(cfg, ic, row, drawId, codes));
    var s2 :- if confirmation.Some? then InsertConfirmation(s1, confirmation.value) else Ok(s1);
    var record := ReconciliationRecord(drawId, instructionId, if confirmation.Some? then Some(confirmation.value.id) else None, codes, ic.entrant);
    Ok((s2.(records := s2.records + [record]),
        RowResult(ic.index + 2, row.externalPartnerId, row.settlementReference, drawId, codes)))
  }

  function DateOf(timestamp: string): string {
    if |timestamp| < 10 then timestamp else timestamp[..10]
  }

  /** The codes of what does not match between a row and its instruction. */
  function Mismatches(row: CsvRow, instruction: Instruction, accountRef: string): seq<Mismatch> {
    (if !MinorText(row.amountMinor) || NumeralValue(row.amountMinor) != instruction.amount then [Amount] else [])
    + (if row.currency != instruction.currency then [Currency] else [])
    + (if row.payeeAccountRef != accountRef then [Payee] else [])
    + (if StringLess(row.settlementDate, DateOf(instruction.instructedAt)) then [Date] else [])
  }

  /** The database's guard on a MATCHED record: the confirmation is of this instruction, and they agree. */
  predicate MatchGuard(s: State, env: Env, record: ReconciliationRecord) {
    record.drawId.Some? && record.instructionId.Some? && record.confirmationId.Some? &&
    exists k :: k in s.instructions && s.instructions[k].id == record.instructionId.value &&
      (exists j :: 0 <= j < |s.confirmations| && s.confirmations[j].id == record.confirmationId.value &&
         Agrees(env, k, s.instructions[k], s.confirmations[j], record.drawId.value))
  }

  predicate Agrees(env: Env, k: (string, string), i: Instruction, c: Confirmation, drawId: string) {
    i.drawId == drawId && c.instructionId == Some(i.id) && c.amount == i.amount && c.currency == i.currency
    && i.payeeBankAccountId in env.accounts && c.payeeAccountRef == env.accounts[i.payeeBankAccountId].accountRef
    && (c.partner, c.reference) == k
  }

  function ConfirmedPayload(confirmationId: string, row: CsvRow): Json {
    Obj([Member("settlement_confirmation_id", Str(confirmationId)), Member("row", RowJson(row))])
  }

  function ReconciledPayload(confirmationId: string, instructionId: string): Json {
    Obj([Member("settlement_confirmation_id", Str(confirmationId)), Member("settlement_instruction_id", Str(instructionId))])
  }

  function ExceptionPayload(confirmationId: string, codes: seq<Mismatch>): Json {
    Obj([Member("settlement_confirmation_id", Str(confirmationId)), Member("mismatch_codes", CodesJson(codes))])
  }

  /** A row for an instruction whose draw awaits confirmation: confirm, compare, then reconcile or raise an exception. */
  function SettleRow(cfg: Config, s: State, env: Env, ic: ImportContext, row: CsvRow, instruction: Instruction): Result<(State, RowResult)>
    requires instruction.drawId in s.draws
  {
    var k := (row.externalPartnerId, row.settlementReference);
    var d := s.draws[instruction.drawId];
    var c := NewConfirmation(cfg, env, ic, row, Some(instruction.id));
    var (s1, confirmed) :- TransitionDraw(cfg, s, env, (ic.index, 1), d, SettlementConfirmed, ic.entrant, ic.role, None,
                                          RowKey(ic.batchKey, ic.index + 1, "confirmed"), ConfirmedPayload(c.id, row));
    var s2 :- InsertConfirmation(s1, c);
    var s3 := s2.(instructions := s2.instructions[k := instruction.(status := ConfirmedByPartner)]);
    var s4 :- SaveDraw(s3, d, confirmed);
    if instruction.payeeBankAccountId !in env.accounts then Err(NotFound)
    else
      var codes := Mismatches(row, instruction, env.accounts[instruction.payeeBankAccountId].accountRef);
      var record := ReconciliationRecord(Some(d.id), Some(instruction.id), Some(c.id), codes, ic.entrant);
      var result := RowResult(ic.index + 2, row.externalPartnerId, row.settlementReference, Some(d.id), codes);
      if codes == [] then
        var (s5, next) :- TransitionDraw(cfg, s4, env, (ic.index, 2), confirmed, Reconciled, ic.entrant, ic.role, None,
                                         RowKey(ic.batchKey, ic.index + 1, "reconciled"), ReconciledPayload(c.id, instruction.id));
        if !MatchGuard(s5, env, record) then Err(ConstraintViolated)
        else
          var s6 :- SaveDraw(s5.(records := s5.records + [record]), confirmed, next.(reconciliationStatus := MatchedStatus));
          Ok((s6, result))
      else
        var (s5, next) :- TransitionDraw(cfg, s4, env, (ic.index, 2), confirmed, ReconciliationException, ic.entrant, ic.role, None,
                                         RowKey(ic.batchKey, ic.index + 1, "exception"), ExceptionPayload(c.id, codes));
        var s6 :- SaveDraw(s5.(records := s5.records + [record]), confirmed, next.(reconciliationStatus := ExceptionStatus));
        Ok((s6, result))
  }

  function ImportRow(cfg: Config, s: State, env: Env, ic: ImportContext, row: CsvRow): Result<(State, RowResult)> {
    var k := (row.externalPartnerId, row.settlementReference);
    if ReferenceConfirmed(s.confirmations, row.externalPartnerId, row.settlementReference) then
      if k in s.instructions then
        RecordException(cfg, s, env, ic, row, Some(s.instructions[k].drawId), Some(s.instructions[k].id), None, [DuplicateReference])
      else RecordException(cfg, s, env, ic, row, None, None, None, [DuplicateReference])
    else if k !in s.instructions then
      // the partner reports a settlement that was never instructed
      RecordException(cfg, s, env, ic, row, None, None, Some(NewConfirmation(cfg, env, ic, row, None)), [UnapprovedSettlement])
    else if s.instructions[k].drawId !in s.draws then Err(NotFound)
    else if !s.draws[s.instructions[k].drawId].status.SettlementInstructed? then
      RecordException(cfg, s, env, ic, row, Some(s.instructions[k].drawId), Some(s.instructions[k].id), None, [DuplicateReference])
    else SettleRow(cfg, s, env, ic, row, s.instructions[k])
  }

  /** The rows in order; the first failure ends the import. */
  function ImportRows(cfg: Config, s: State, env: Env, ic: ImportContext, rows: seq<CsvRow>): Result<(State, seq<RowResult>)> {
    if rows == [] then Ok((s, []))
    else
      var (s1, results) :- ImportRows(cfg, s, env, ic, rows[..|rows| - 1]);
      var (s2, result) :- ImportRow(cfg, s1, env, ic.(index := |rows| - 1), rows[|rows| - 1]);
      Ok((s2, results + [result]))
  }

  function ImportedPayload(rows: seq<CsvRow>, confirmer: string): Json {
    Obj([Member("rows", Arr(RowsJson(rows))), Member("second_entry_subject", Str(confirmer))])
  }

  /** Both entries of a batch, by two people: equal entries are imported row by row. */
  function ImportCsv(cfg: Config, s: State, env: Env, entrant: string, confirmer: string, batchKey: string, first: string, second: string)
    : Result<(State, seq<RowResult>)>
  {
    if entrant == confirmer then Err(DualEntrySamePerson)
    else
      match (ParseConfirmationCsv(first), ParseConfirmationCsv(second))
      case (Some(rows), Some(copy)) =>
        if AuditText(Arr(RowsJson(rows))) != AuditText(Arr(RowsJson(copy))) then Err(DualEntryMismatch)
        else if entrant == "" then Err(SessionRequired)
        else if batchKey == "" then Err(IdempotencyKeyRequired)
        else if KeyUsed(s.chain.rows, batchKey) then Err(BatchAlreadyImported)
        else
          var role :- RequireRole(env, entrant, CSV_ENTRY_ROLES, []);
          var _ :- RequireRole(env, confirmer, CSV_ENTRY_ROLES, []);
          var s1 :- Log(cfg, s, env, (|rows|, 1), PlainEvent(cfg, entrant, role, "CSV_BATCH_IMPORTED", "SETTLEMENT_CONFIRMATION", batchKey,
                                                            batchKey, ImportedPayload(rows, confirmer)));
          ImportRows(cfg, s1, env, ImportContext(entrant, confirmer, role, batchKey, 0), rows)
      case _ => Err(CsvInvalid)
  }

  /** The second person's copy, against the entry staged by the first. */
  function ConfirmCsv(cfg: Config, s: State, env: Env, subject: string, batchKey: string, csv: string): Result<(State, seq<RowResult>)> {
    if subject == "" then Err(SessionRequired)
    else if batchKey !in s.batches then Err(NotFound)
    else ImportCsv(cfg, s, env, s.batches[batchKey].subject, subject, batchKey, s.batches[batchKey].csv, csv)
  }

  // ---------------------------------------------------------------------------
  // Runs
  // ---------------------------------------------------------------------------

  datatype Operation =
    | CreatesDraft(env: Env, subject: string, draft: DraftInput)
    | UploadsEvidence(env: Env, subject: string, upload: UploadInput)
    | VerifiesEvidence(env: Env, subject: string, documentId: string, key: string)
    | Submits(env: Env, subject: string, drawId: string, key: string)
    | Evaluates(env: Env, subject: string, drawId: string, key: string)
    | Approves(env: Env, subject: string, approval: ApproveInput)
    | Instructs(env: Env, subject: string, instruction: InstructInput)
    | StagesCsv(env: Env, subject: string, key: string, csv: string)
    | ConfirmsCsv(env: Env, subject: string, key: string, csv: string)
    | ImportsCsv(env: Env, subject: string, confirmer: string, key: string, first: string, second: string)

  function StateOf(r: Result<(State, seq<RowResult>)>): Result<State> {
    match r
    case Ok((s, _)) => Ok(s)
    case Err(e) => Err(e)
  }

  function Perform(cfg: Config, s: State, op: Operation): Result<State> {
    match op
    case CreatesDraft(env, subject, draft) => CreateDraft(cfg, s, env, subject, draft)
    case UploadsEvidence(env, subject, upload) => UploadEvidence(cfg, s, env, subject, upload)
    case VerifiesEvidence(env, subject, documentId, key) => VerifyEvidence(cfg, s, env, subject, documentId, key)
    case Submits(env, subject, drawId, key) => Submit(cfg, s, env, subject, drawId, key)
    case Evaluates(env, subject, drawId, key) => Evaluate(cfg, s, env, subject, drawId, key)
    case Approves(env, subject, approval) => Approve(cfg, s, env, subject, approval)
    case Instructs(env, subject, instruction) => Instruct(cfg, s, env, subject, instruction)
    case StagesCsv(env, subject, key, csv) => StageCsv(cfg, s, env, subject, key, csv)
    case ConfirmsCsv(env, subject, key, csv) => StateOf(ConfirmCsv(cfg, s, env, subject, key, csv))
    case ImportsCsv(env, subject, confirmer, key, first, second) => StateOf(ImportCsv(cfg, s, env, subject, confirmer, key, first, second))
  }

  /** A failed operation is rolled back. */
  function Step(cfg: Config, s: State, op: Operation): State {
    match Perform(cfg, s, op)
    case Ok(after) => after
    case Err(_) => s
  }

  /** The state after a sequence of operations, each accepted or refused. */
  function Run(cfg: Config, s: State, ops: seq<Operation>): State {
    if ops == [] then s else Step(cfg, Run(cfg, s, ops[..|ops| - 1]), ops[|ops| - 1])
  }

  /** Some operations of some users lead from the empty tables to this state. */
  ghost predicate Reachable(cfg: Config, s: State) {
    exists ops :: s == Run(cfg, INITIAL, ops)
  }
}
