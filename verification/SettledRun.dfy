/**
 * One run from the empty tables to a reconciled draw: created, evidenced, verified,
 * submitted, evaluated, approved, instructed and settled by three people.
 */
module SettledRun {
  import opened Ordering
  import opened Decimal
  import opened CanonicalJson
  import opened Ledger
  import opened DrawMachine
  import opened ConfirmationCsv
  import opened CsvRoundTrip
  import opened Workflow
  import opened WorkflowAcceptance
  import opened WorkflowSuccess
  import opened DraftKeys

  // ---------------------------------------------------------------------------
  // The setting
  // ---------------------------------------------------------------------------

  const PACK := PolicyPack(["INVOICE"], 1, ["RiskOwner"], 1)

  function RunConfig(): Config { Config("tenant", map["policy" := PACK], Marked) }

  const GRANTS := {
    Grant("owner", "OperationsOwner", None, false),
    Grant("checker", "RiskOwner", None, false),
    Grant("payer", "TreasuryOwner", None, false)}

  const NOW := "2026-01-01T00:00:00Z"

  /** Ids start with `first` for the event of an import, then with `second`, and with `third` for the last event of a row. */
  function RunEnv(first: char, second: char, third: char): Env {
    Env(NOW, 0,
        (i: nat, j: nat) => if i == 1 then [first] else if j == 0 then [second, 'r'] else if j == 1 then [second] else [third],
        map["deal" := Deal("spv", "EUR", "policy")], map["account" := Account("ref", "EUR", true, None)],
        map["payee" := Counterparty(true, Some(0))], GRANTS, {})
  }

  function OneEventEnv(letter: char): Env { RunEnv(letter, letter, letter) }

  lemma Held(env: Env, subject: string, allowed: seq<string>, i: nat, scopes: seq<string>)
    requires env.grants == GRANTS && i < |allowed|
    requires (subject, allowed[i]) in {("owner", "OperationsOwner"), ("checker", "RiskOwner"), ("payer", "TreasuryOwner")}
    ensures RequireRole(env, subject, allowed, scopes).Ok?
  {
    assert Grant(subject, allowed[i], None, false) in env.grants;
    assert HoldsRole(env, subject, allowed[i], scopes);
    RoleGranted(env, subject, allowed, scopes);
  }

  lemma NobodyIsAService(env: Env, subject: string)
    requires env.grants == GRANTS
    ensures !ServiceAccount(env, subject)
  {
  }

  /** The tables are these, under a sound chain. */
  ghost predicate At(cfg: Config, s: State, tables: State, keys: set<string>, next: char) {
    s == tables.(chain := s.chain) && Recorded(cfg, s.chain, keys, next)
  }

  // ---------------------------------------------------------------------------
  // The tables, operation by operation
  // ---------------------------------------------------------------------------

  const DRAFT_INPUT := DraftInput("deal", "first", "payee", "account", "1", "EUR", [], "create")
  const ID := "ar"
  const DOCUMENT_ID := "br"

  function Drafted(): DrawRequest { NewDraw(OneEventEnv('a'), "owner", "spv", DRAFT_INPUT, 1) }

  function WithDraw(s: State, d: DrawRequest): State { s.(draws := map[ID := d]) }

  function Created(): State { WithDraw(INITIAL, Drafted()) }

  const UPLOAD := UploadInput(ID, "INVOICE", "content", "upload")

  function Invoice(cfg: Config, verified: bool): Document {
    Document(DOCUMENT_ID, ID, "deal", "INVOICE", Digest(cfg, "content"), 1, None, "owner", verified)
  }

  function Uploaded(cfg: Config): State { Created().(documents := [Invoice(cfg, false)]) }

  function Verified(cfg: Config): State { Created().(documents := [Invoice(cfg, true)]) }

  function FrozenHash(cfg: Config): string { ManifestHash(cfg, [Invoice(cfg, true)]) }

  function SubmittedDraw(cfg: Config): DrawRequest {
    Drafted().(status := Submitted, submittedAt := Some(NOW), lockedPolicyVersion := Some("policy"),
               lockedManifestHash := Some(FrozenHash(cfg)))
  }

  function SubmittedState(cfg: Config): State {
    WithDraw(Verified(cfg), SubmittedDraw(cfg)).(manifests := map[ID := Manifest([DOCUMENT_ID], FrozenHash(cfg))])
  }

  function ReviewedDraw(cfg: Config): DrawRequest {
    SubmittedDraw(cfg).(status := UnderReview, policyEvaluationId := Some("er"))
  }

  function Reviewed(cfg: Config): State {
    WithDraw(SubmittedState(cfg), ReviewedDraw(cfg)).(evaluations := map["er" := Evaluation(ID, "policy", Some(FrozenHash(cfg)), true)])
  }

  const CONTROLS := Controls("1", "1", true, Current, false, true, false)
  const APPROVAL := ApproveInput(ID, "1", CONTROLS, "approve")

  function Binding(cfg: Config): string { BindingHash(cfg, ReviewedDraw(cfg), 1) }

  function ApprovedDraw(cfg: Config): DrawRequest {
    ReviewedDraw(cfg).(status := Approved, amountApproved := Some(1), approvalBindingHash := Some(Binding(cfg)))
  }

  function CheckersDecision(cfg: Config): Decision {
    Decision(ID, "checker", "RiskOwner", Some("policy"), Some(FrozenHash(cfg)), Binding(cfg), "approve")
  }

  function ApprovedState(cfg: Config): State {
    WithDraw(Reviewed(cfg), ApprovedDraw(cfg)).(decisions := [CheckersDecision(cfg)])
  }

  const INSTRUCTION := InstructInput(ID, "partner", "reference", "instruct")

  function InstructedDraw(cfg: Config): DrawRequest { ApprovedDraw(cfg).(status := SettlementInstructed) }

  function Payment(cfg: Config): Instruction {
    Instruction("gr", ID, "payer", 1, "EUR", "account", Some("policy"), Some(FrozenHash(cfg)), Some(Binding(cfg)), Sent, NOW, "instruct")
  }

  function InstructedState(cfg: Config): State {
    WithDraw(ApprovedState(cfg), InstructedDraw(cfg)).(instructions := map[("partner", "reference") := Payment(cfg)])
  }

  // the idempotency keys used before each operation
  const SUBMIT_KEYS := {"create", "upload", "verify"}
  const EVALUATE_KEYS := SUBMIT_KEYS + {"submit"}
  const APPROVE_KEYS := EVALUATE_KEYS + {"evaluate"}
  const INSTRUCT_KEYS := APPROVE_KEYS + {"approve"}
  const IMPORT_KEYS := INSTRUCT_KEYS + {"instruct"}

  const SETTLED_ROW := CsvRow("partner", "reference", "1", "EUR", "ref", "2026-01-01")

  // ---------------------------------------------------------------------------
  // Draft and evidence
  // ---------------------------------------------------------------------------

  lemma AmountIsOne()
    ensures ParseMinor("1") == Some(1) && MinorText("1") && NumeralValue("1") == 1
  {
    assert "1"[..0] == "";
  }

  lemma DraftCreatable(env: Env)
    requires env == OneEventEnv('a')
    ensures Creatable(INITIAL, env, "owner", DRAFT_INPUT) && NewDraw(env, "owner", env.deals["deal"].spvId, DRAFT_INPUT, 1) == Drafted()
  {
    AmountIsOne();
    Held(env, "owner", ["BorrowerSponsor", "OperationsOwner"], 1, ["deal"]);
    hide RequireRole, ParseMinor;
  }

  lemma Creates(cfg: Config)
    requires cfg == RunConfig() && GoodHash(cfg.sha)
    ensures var r := CreateDraft(cfg, INITIAL, OneEventEnv('a'), "owner", DRAFT_INPUT);
            r.Ok? && At(cfg, r.value, Created(), {"create"}, 'b')
  {
    var env := OneEventEnv('a');
    EmptyIsSound(cfg.sha);
    AmountIsOne();
    assert Recorded(cfg, INITIAL.chain, {}, 'a');
    DraftCreatable(env);
    hide Recorded, GoodHash, CreateDraft, Creatable, NewDraw, ParseMinor;
    CreateGoes(cfg, INITIAL, env, "owner", DRAFT_INPUT, {}, 'a', 'b');
    assert {} + {"create"} == {"create"};
    assert INITIAL.draws[ID := Drafted()] == map[ID := Drafted()];
  }

  lemma FirstVersion(cfg: Config, s: State, env: Env)
    requires env == OneEventEnv('b') && s == Created().(chain := s.chain)
    ensures NewDocument(cfg, s, env, "owner", s.draws[ID], UPLOAD) == Invoice(cfg, false) && !DocumentExists(s.documents, env.id(0, 0))
    ensures s.draws[ID].status.Draft? && s.draws[ID].dealId == "deal" && "INVOICE" in DOCUMENT_TYPES
  {
    hide Digest;
  }

  lemma Uploads(cfg: Config, s: State)
    requires cfg == RunConfig() && GoodHash(cfg.sha) && At(cfg, s, Created(), {"create"}, 'b')
    ensures var r := UploadEvidence(cfg, s, OneEventEnv('b'), "owner", UPLOAD);
            r.Ok? && At(cfg, r.value, Uploaded(cfg), {"create", "upload"}, 'c')
  {
    var env := OneEventEnv('b');
    Held(env, "owner", ["BorrowerSponsor", "Inspector", "OperationsOwner"], 2, ["deal"]);
    FirstVersion(cfg, s, env);
    hide Recorded, GoodHash, UploadEvidence, RequireRole, NewDocument, DocumentExists, DOCUMENT_TYPES, Digest, Drafted;
    UploadGoes(cfg, s, env, "owner", UPLOAD, {"create"}, 'b', 'c');
    assert {"create"} + {"upload"} == {"create", "upload"};
    assert s.documents + [Invoice(cfg, false)] == [Invoice(cfg, false)];
  }

  lemma Verifies(cfg: Config, s: State)
    requires cfg == RunConfig() && GoodHash(cfg.sha) && At(cfg, s, Uploaded(cfg), {"create", "upload"}, 'c')
    ensures var r := VerifyEvidence(cfg, s, OneEventEnv('c'), "checker", DOCUMENT_ID, "verify");
            r.Ok? && At(cfg, r.value, Verified(cfg), SUBMIT_KEYS, 'd')
  {
    var env := OneEventEnv('c');
    Held(env, "checker", ["OperationsOwner", "Inspector", "Underwriter", "RiskOwner"], 3, ["deal"]);
    assert FindDocument(s.documents, DOCUMENT_ID) == Some(0);
    hide Recorded, GoodHash, VerifyEvidence, RequireRole, FindDocument, Digest, Drafted;
    VerifyGoes(cfg, s, env, "checker", DOCUMENT_ID, "verify", 0, {"create", "upload"}, 'c', 'd');
    assert {"create", "upload"} + {"verify"} == {"create", "upload", "verify"};
    assert s.documents[0 := Invoice(cfg, true)] == [Invoice(cfg, true)];
  }

  // ---------------------------------------------------------------------------
  // Submission and evaluation
  // ---------------------------------------------------------------------------

  lemma OneCurrentDocument(d: Document)
    requires d.supersedes.None?
    ensures CurrentDocuments([d], d.drawId) == [d] && Ids([d]) == [d.id]
  {
    assert [d][..0] == [] && [d][1..] == [];
    assert !Superseded([d], d.id);
    assert HeadsAmong([d], [], d.drawId) == [];
    assert HeadsAmong([d], [d], d.drawId) == [d];
    assert SortBy([], DocumentId) == [];
  }

  lemma SubmitReady(cfg: Config, s: State, env: Env)
    requires cfg == RunConfig() && s == Verified(cfg).(chain := s.chain) && env == OneEventEnv('d')
    ensures ID in s.draws && ID !in s.manifests && s.draws[ID].requestedBy == "owner" && CurrentDocuments(s.documents, ID) == [Invoice(cfg, true)]
    ensures var d := s.draws[ID];
            d.status.Draft? && d.submittedAt.None? && d.id == ID && d.dealId in env.deals && env.deals[d.dealId].policyVersion == "policy"
            && SubmittedDraw(cfg) == d.(status := Submitted, submittedAt := Some(env.now), lockedPolicyVersion := Some("policy"),
                                        lockedManifestHash := Some(FrozenHash(cfg)))
            && Savable(s, d, SubmittedDraw(cfg))
  {
    hide FrozenHash, Digest, CurrentDocuments;
    OneCurrentDocument(Invoice(cfg, true));
  }

  lemma SubmittedIs(cfg: Config, s: State, t: State)
    requires s == Verified(cfg).(chain := s.chain)
    requires t == s.(chain := t.chain, draws := s.draws[ID := SubmittedDraw(cfg)],
                     manifests := s.manifests[ID := Manifest(Ids([Invoice(cfg, true)]), FrozenHash(cfg))])
    ensures t == SubmittedState(cfg).(chain := t.chain)
  {
    hide FrozenHash, Digest, SubmittedDraw, Drafted;
    OneCurrentDocument(Invoice(cfg, true));
  }

  lemma Submits(cfg: Config, s: State)
    requires cfg == RunConfig() && GoodHash(cfg.sha) && At(cfg, s, Verified(cfg), SUBMIT_KEYS, 'd')
    ensures var r := Submit(cfg, s, OneEventEnv('d'), "owner", ID, "submit");
            r.Ok? && At(cfg, r.value, SubmittedState(cfg), EVALUATE_KEYS, 'e')
  {
    var env := OneEventEnv('d');
    SubmitReady(cfg, s, env);
    hide Recorded, GoodHash, Submit, Savable, CurrentDocuments, Ids, Verified, SubmittedDraw, SubmittedState;
    SubmitGoes(cfg, s, env, "owner", ID, "submit", SubmittedDraw(cfg), SUBMIT_KEYS, 'd', 'e');
    SubmittedIs(cfg, s, Submit(cfg, s, env, "owner", ID, "submit").value);
  }

  lemma EvidenceComplete(cfg: Config, s: State)
    requires s.documents == [Invoice(cfg, true)] && s.manifests == map[ID := Manifest([DOCUMENT_ID], FrozenHash(cfg))]
    ensures ManifestComplete(s, ID, PACK) && ManifestVerified(s, ID)
  {
    hide FrozenHash, Digest;
    assert s.documents[0].id in s.manifests[ID].documentIds;
    assert InManifest(s, ID, "INVOICE");
  }

  lemma EvaluateReady(cfg: Config, s: State, env: Env)
    requires cfg == RunConfig() && s == SubmittedState(cfg).(chain := s.chain) && env == OneEventEnv('e')
    ensures ID in s.draws && env.id(0, 0) == "er" && "er" !in s.evaluations && ManifestComplete(s, ID, PACK)
    ensures var d := s.draws[ID];
            d.status.Submitted? && d.id == ID && PackOf(cfg, d.lockedPolicyVersion) == Ok(PACK)
            && d.lockedPolicyVersion == Some("policy") && d.lockedManifestHash == Some(FrozenHash(cfg))
            && RequireRole(env, "checker", ["OperationsOwner", "RiskOwner", "Underwriter", "LenderAdmin"], [d.dealId]).Ok?
            && ReviewedDraw(cfg) == d.(status := UnderReview, policyEvaluationId := Some("er")) && Savable(s, d, ReviewedDraw(cfg))
  {
    hide FrozenHash, Digest, ManifestComplete, ManifestVerified, RequireRole;
    EvidenceComplete(cfg, s);
    Held(env, "checker", ["OperationsOwner", "RiskOwner", "Underwriter", "LenderAdmin"], 1, [s.draws[ID].dealId]);
  }

  lemma ReviewedIs(cfg: Config, s: State, t: State)
    requires s == SubmittedState(cfg).(chain := s.chain)
    requires t == s.(chain := t.chain, draws := s.draws[ID := ReviewedDraw(cfg)],
                     evaluations := s.evaluations["er" := Evaluation(ID, "policy", Some(FrozenHash(cfg)), true)])
    ensures t == Reviewed(cfg).(chain := t.chain)
  {
    hide FrozenHash, Digest, ReviewedDraw, SubmittedDraw, Drafted;
  }

  lemma Evaluates(cfg: Config, s: State)
    requires cfg == RunConfig() && GoodHash(cfg.sha) && At(cfg, s, SubmittedState(cfg), EVALUATE_KEYS, 'e')
    ensures var r := Evaluate(cfg, s, OneEventEnv('e'), "checker", ID, "evaluate");
            r.Ok? && At(cfg, r.value, Reviewed(cfg), APPROVE_KEYS, 'f')
  {
    var env := OneEventEnv('e');
    KeysDiffer();
    EvaluateReady(cfg, s, env);
    hide EVALUATE_KEYS;
    hide Recorded, GoodHash, Evaluate, Savable, FrozenHash, RequireRole, ManifestComplete, SubmittedState, ReviewedDraw, Reviewed, PackOf;
    EvaluateGoes(cfg, s, env, "checker", ID, "evaluate", ReviewedDraw(cfg), EVALUATE_KEYS, 'e', 'f');
    ReviewedIs(cfg, s, Evaluate(cfg, s, env, "checker", ID, "evaluate").value);
  }

  // ---------------------------------------------------------------------------
  // Approval and instruction
  // ---------------------------------------------------------------------------

  lemma KeysDiffer()
    ensures "submit" !in SUBMIT_KEYS && "evaluate" !in EVALUATE_KEYS && "approve" !in APPROVE_KEYS
  {
    assert |"create"| == |"upload"| == |"verify"| == |"submit"| == 6 && |"approve"| == 7 && |"evaluate"| == 8;
    assert "submit"[0] == 's' && "create"[0] == 'c' && "upload"[0] == 'u' && "verify"[0] == 'v';
  }

  const CLEAR := ApprovalContext(
    true, false, 1, 1, true, Current, false, true, false, true, true, true, false, true, true, true, true, true)

  lemma ContextIsClear(cfg: Config, s: State, env: Env)
    requires cfg == RunConfig() && s == Reviewed(cfg).(chain := s.chain) && env == OneEventEnv('f')
    ensures ContextOf(s, env, "checker", ReviewedDraw(cfg), PACK, Binding(cfg), 1, 1, CONTROLS) == CLEAR
  {
    EvidenceComplete(cfg, s);
    hide FrozenHash, Digest, ManifestComplete, ManifestVerified, Binding;
    var d := ReviewedDraw(cfg);
    assert Approvers(s.decisions, d.id, Binding(cfg)) == {};
    assert {} + {"checker"} == {"checker"};
    assert SanctionsFresh(env, "payee", 1) && PayeeVerified(env, "account") && !OpenHoldOn(env, d);
  }

  lemma ClearPasses()
    ensures forall f: Failure :: !Blocks(f, Some(1), 1, CLEAR)
  {
  }

  lemma NothingBlocks(cfg: Config, s: State, env: Env)
    requires cfg == RunConfig() && s == Reviewed(cfg).(chain := s.chain) && env == OneEventEnv('f')
    ensures Clears(cfg, s, env, "checker", ReviewedDraw(cfg), 1, CONTROLS)
  {
    AmountIsOne();
    ContextIsClear(cfg, s, env);
    ClearPasses();
    assert PackOf(cfg, ReviewedDraw(cfg).lockedPolicyVersion) == Ok(PACK) && ReviewedDraw(cfg).amountRequested == 1;
    hide FrozenHash, Digest, BindingHash, ParseMinor, ContextOf, ReviewedDraw, Reviewed, PackOf, RunConfig, RunEnv, Blocks, CLEAR, PACK;
  }

  lemma ApproveReady(cfg: Config, s: State, env: Env)
    requires cfg == RunConfig() && s == Reviewed(cfg).(chain := s.chain) && env == OneEventEnv('f')
    ensures ID in s.draws && s.draws[ID] == ReviewedDraw(cfg) && s.decisions == []
    ensures var d := ReviewedDraw(cfg);
            d.status.UnderReview? && d.id == ID && PackOf(cfg, d.lockedPolicyVersion) == Ok(PACK)
            && RequireRole(env, "checker", PACK.approverRoles, [d.dealId, d.spvId]) == Ok("RiskOwner")
            && DecisionOf(cfg, d, "checker", "RiskOwner", 1, "approve") == CheckersDecision(cfg)
            && DecisionAllowed(s, env, d, CheckersDecision(cfg))
            && ApprovedAs(cfg, d, 1) == ApprovedDraw(cfg) && Savable(s, d, ApprovedDraw(cfg))
  {
    hide FrozenHash, Digest, BindingHash;
    var d := ReviewedDraw(cfg);
    Held(env, "checker", ["RiskOwner"], 0, [d.dealId, d.spvId]);
    NobodyIsAService(env, "checker");
  }

  lemma ApprovedIs(cfg: Config, s: State, t: State)
    requires s == Reviewed(cfg).(chain := s.chain)
    requires t == s.(chain := t.chain, draws := s.draws[ID := ApprovedDraw(cfg)], decisions := s.decisions + [CheckersDecision(cfg)])
    ensures t == ApprovedState(cfg).(chain := t.chain)
  {
    hide FrozenHash, Digest, ApprovedDraw, ReviewedDraw, SubmittedDraw, Drafted, CheckersDecision;
    assert [] + [CheckersDecision(cfg)] == [CheckersDecision(cfg)];
  }

  lemma Approves(cfg: Config, s: State)
    requires cfg == RunConfig() && GoodHash(cfg.sha) && At(cfg, s, Reviewed(cfg), APPROVE_KEYS, 'f')
    ensures var r := Approve(cfg, s, OneEventEnv('f'), "checker", APPROVAL);
            r.Ok? && At(cfg, r.value, ApprovedState(cfg), INSTRUCT_KEYS, 'g')
  {
    var env := OneEventEnv('f');
    AmountIsOne();
    KeysDiffer();
    NothingBlocks(cfg, s, env);
    ApproveReady(cfg, s, env);
    hide APPROVE_KEYS;
    hide Recorded, GoodHash, Approve, Savable, FrozenHash, RequireRole, DecisionAllowed, DecisionOf, ApprovedAs, Clears, Reviewed, ReviewedDraw,
         ApprovedDraw, CheckersDecision, ApprovedState, PackOf, ParseMinor;
    ApproveGoes(cfg, s, env, "checker", APPROVAL, 1, APPROVE_KEYS, 'f', 'g');
    ApprovedIs(cfg, s, Approve(cfg, s, env, "checker", APPROVAL).value);
  }

  lemma InstructKeyIsNew()
    ensures "instruct" !in INSTRUCT_KEYS
  {
    assert |"create"| == |"upload"| == |"verify"| == |"submit"| == 6 && |"approve"| == 7 && |"instruct"| == 8;
    assert "evaluate"[0] == 'e' && "instruct"[0] == 'i';
  }

  lemma InstructReady(cfg: Config, s: State, env: Env)
    requires cfg == RunConfig() && s == ApprovedState(cfg).(chain := s.chain) && env == OneEventEnv('g')
    ensures ID in s.draws
    ensures var d := s.draws[ID];
            d == ApprovedDraw(cfg) && d.status.Approved? && d.id == ID && d.amountApproved == Some(1)
            && RequireRole(env, "payer", ["TreasuryOwner"], [d.dealId, d.spvId]).Ok?
            && PaymentOf(env, d, "payer", 1, "instruct") == Payment(cfg)
            && InstructionAllowed(s, env, d, "partner", "reference", Payment(cfg))
            && d.(status := SettlementInstructed) == InstructedDraw(cfg) && Savable(s, d, InstructedDraw(cfg))
  {
    hide FrozenHash, Digest, BindingHash;
    var d := ApprovedDraw(cfg);
    Held(env, "payer", ["TreasuryOwner"], 0, [d.dealId, d.spvId]);
    assert Grant("payer", "TreasuryOwner", None, false) in env.grants;
    assert PayeeVerified(env, "account") && !OpenHoldOn(env, d);
  }

  lemma InstructedIs(cfg: Config, s: State, t: State)
    requires s == ApprovedState(cfg).(chain := s.chain)
    requires t == s.(chain := t.chain, draws := s.draws[ID := InstructedDraw(cfg)],
                     instructions := s.instructions[("partner", "reference") := Payment(cfg)])
    ensures t == InstructedState(cfg).(chain := t.chain)
  {
    hide FrozenHash, Digest, InstructedDraw, ApprovedDraw, ReviewedDraw, SubmittedDraw, Drafted, CheckersDecision, Payment;
  }

  lemma Instructs(cfg: Config, s: State)
    requires cfg == RunConfig() && GoodHash(cfg.sha) && At(cfg, s, ApprovedState(cfg), INSTRUCT_KEYS, 'g')
    ensures var r := Instruct(cfg, s, OneEventEnv('g'), "payer", INSTRUCTION);
            r.Ok? && At(cfg, r.value, InstructedState(cfg), IMPORT_KEYS, 'h')
  {
    var env := OneEventEnv('g');
    InstructKeyIsNew();
    InstructReady(cfg, s, env);
    hide INSTRUCT_KEYS;
    hide Recorded, GoodHash, Instruct, Savable, FrozenHash, RequireRole, InstructionAllowed, PaymentOf, ApprovedState, ApprovedDraw,
         InstructedDraw, InstructedState, Payment;
    InstructGoes(cfg, s, env, "payer", INSTRUCTION, INSTRUCT_KEYS, 'g', 'h');
    InstructedIs(cfg, s, Instruct(cfg, s, env, "payer", INSTRUCTION).value);
  }

  // ---------------------------------------------------------------------------
  // Settlement
  // ---------------------------------------------------------------------------

  lemma BatchKeyIsNew()
    ensures "batch" !in IMPORT_KEYS
  {
    assert |"create"| == |"upload"| == |"verify"| == |"submit"| == 6 && |"approve"| == 7 && |"instruct"| == |"evaluate"| == 8;
  }

  lemma TwoDigits(t: string, a: nat, b: nat)
    requires |t| == 2 && a < 10 && b < 10 && t[0] == DigitOf(a) && t[1] == DigitOf(b)
    ensures Digits(t) && NumeralValue(t) == 10 * a + b
  {
    assert t[..1][..0] == [];
    assert NumeralValue(t[..1]) == a;
  }

  lemma DateIsReal()
    ensures CalendarDate("2026-01-01")
  {
    var t := "2026-01-01";
    TwoDigits(t[5..7], 0, 1);
    TwoDigits(t[8..10], 0, 1);
    TwoDigits(t[0..2], 2, 0);
    assert t[0..4][..3][..2] == t[0..2];
    assert NumeralValue(t[0..4][..3]) == 202;
    assert NumeralValue(t[0..4]) == 2026;
  }

  lemma RowIsWritable()
    ensures Writable([SETTLED_ROW])
  {
    AmountIsOne();
    TrimmedAlready("partner");
    TrimmedAlready("reference");
    TrimmedAlready("ref");
  }

  lemma RowConfirms(cfg: Config, env: Env)
    requires env.accounts == map["account" := Account("ref", "EUR", true, None)]
    ensures Confirms(env, SETTLED_ROW, Payment(cfg))
  {
    hide FrozenHash, Binding;
    AmountIsOne();
    assert DateOf(NOW) == "2026-01-01";
    StringLessIrreflexive("2026-01-01");
    hide StringLess, MinorText, NumeralValue;
  }

  function BatchContext(): ImportContext { ImportContext("payer", "checker", "TreasuryOwner", "batch", 0) }

  lemma RowConfirmable(cfg: Config, s: State, env: Env)
    requires s.confirmations == [] && env == RunEnv('h', 'i', 'j')
    ensures Confirmable(s, ConfirmationOf(cfg, env, BatchContext(), SETTLED_ROW, Payment(cfg)))
  {
    AmountIsOne();
    DateIsReal();
    assert |"payer"| != |"checker"|;
    hide FrozenHash, Digest, Binding, CalendarDate, AuditText, RowJson, MinorText, NumeralValue;
  }

  lemma InstructedFacts(cfg: Config, s: State)
    requires s == InstructedState(cfg).(chain := s.chain)
    ensures s.confirmations == [] && s.instructions == map[("partner", "reference") := Payment(cfg)] && s.draws == map[ID := InstructedDraw(cfg)]
    ensures Payment(cfg).drawId == ID
    ensures var d := InstructedDraw(cfg);
            d.id == ID && d.status.SettlementInstructed? && RowChecks(d.(status := SettlementConfirmed)) && RowChecks(ReconciledAs(d))
  {
    hide FrozenHash, Digest, Binding;
  }

  lemma RowSettleable(cfg: Config, s: State, env: Env)
    requires cfg == RunConfig() && s == InstructedState(cfg).(chain := s.chain) && env == RunEnv('h', 'i', 'j')
    ensures Settleable(cfg, s, env, BatchContext(), SETTLED_ROW) && !ReferenceConfirmed(s.confirmations, "partner", "reference")
    ensures s.instructions[("partner", "reference")] == Payment(cfg)
  {
    InstructedFacts(cfg, s);
    RowConfirmable(cfg, s, env);
    RowConfirms(cfg, env);
    hide Confirms, Confirmable, ConfirmationOf, RowChecks, InstructedState, InstructedDraw, Payment, BatchContext, RunEnv;
  }

  lemma BothMayEnter(env: Env)
    requires env.grants == GRANTS
    ensures RequireRole(env, "payer", CSV_ENTRY_ROLES, []) == Ok("TreasuryOwner") && RequireRole(env, "checker", CSV_ENTRY_ROLES, []).Ok?
  {
    Held(env, "checker", CSV_ENTRY_ROLES, 3, []);
    assert Grant("payer", "TreasuryOwner", None, false) in env.grants;
    assert HoldsRole(env, "payer", CSV_ENTRY_ROLES[0], []);
  }

  lemma Imports(cfg: Config, s: State)
    requires cfg == RunConfig() && GoodHash(cfg.sha) && At(cfg, s, InstructedState(cfg), IMPORT_KEYS, 'h')
    ensures var r := ImportCsv(cfg, s, RunEnv('h', 'i', 'j'), "payer", "checker", "batch", CsvText([SETTLED_ROW]), CsvText([SETTLED_ROW]));
            r.Ok? && r.value.0 == SettledTables(cfg, InstructedState(cfg), RunEnv('h', 'i', 'j'), BatchContext(), SETTLED_ROW, Payment(cfg))
                                    .(chain := r.value.0.chain)
  {
    var env, ic := RunEnv('h', 'i', 'j'), BatchContext();
    BatchKeyIsNew();
    RowIsWritable();
    BothMayEnter(env);
    RowSettleable(cfg, s, env);
    InstructedFacts(cfg, InstructedState(cfg));
    assert |"payer"| != |"checker"|;
    assert env.id(1, 1) == "h" && env.id(0, 1) == "i" && env.id(0, 2) == "j";
    hide IMPORT_KEYS;
    hide Recorded, GoodHash, ImportCsv, Settleable, SettledTables, ReferenceConfirmed, RequireRole, CsvText, Writable, InstructedState, RunEnv, Payment;
    ImportGoes(cfg, s, env, ic, SETTLED_ROW, IMPORT_KEYS, 'h', 'i', 'j', 'k');
    SameSettled(cfg, InstructedState(cfg), s.chain, env, ic, SETTLED_ROW, Payment(cfg),
                ImportCsv(cfg, s, env, "payer", "checker", "batch", CsvText([SETTLED_ROW]), CsvText([SETTLED_ROW])).value.0.chain);
  }

  // ---------------------------------------------------------------------------
  // The run
  // ---------------------------------------------------------------------------

  lemma Reaches(cfg: Config, s: State, op: Operation)
    requires Reachable(cfg, s) && Perform(cfg, s, op).Ok?
    ensures Reachable(cfg, Perform(cfg, s, op).value)
  {
    hide Perform;
    var ops :| s == Run(cfg, INITIAL, ops);
    assert (ops + [op])[..|ops|] == ops;
    assert Perform(cfg, s, op).value == Run(cfg, INITIAL, ops + [op]);
  }

  lemma EmptyIsReachable(cfg: Config)
    ensures Reachable(cfg, INITIAL)
  {
    assert INITIAL == Run(cfg, INITIAL, []);
  }

  lemma DraftedRun(cfg: Config) returns (s: State)
    requires cfg == RunConfig() && GoodHash(cfg.sha)
    ensures Reachable(cfg, s) && At(cfg, s, Verified(cfg), SUBMIT_KEYS, 'd')
  {
    hide Reachable, At, GoodHash, CreateDraft, UploadEvidence, VerifyEvidence, RunConfig, RunEnv, OneEventEnv, INITIAL, SUBMIT_KEYS;
    EmptyIsReachable(cfg);
    Creates(cfg);
    Reaches(cfg, INITIAL, CreatesDraft(OneEventEnv('a'), "owner", DRAFT_INPUT));
    s := CreateDraft(cfg, INITIAL, OneEventEnv('a'), "owner", DRAFT_INPUT).value;
    Uploads(cfg, s);
    Reaches(cfg, s, UploadsEvidence(OneEventEnv('b'), "owner", UPLOAD));
    s := UploadEvidence(cfg, s, OneEventEnv('b'), "owner", UPLOAD).value;
    Verifies(cfg, s);
    Reaches(cfg, s, VerifiesEvidence(OneEventEnv('c'), "checker", DOCUMENT_ID, "verify"));
    s := VerifyEvidence(cfg, s, OneEventEnv('c'), "checker", DOCUMENT_ID, "verify").value;
  }

  lemma AfterSubmission(cfg: Config) returns (s: State)
    requires cfg == RunConfig() && GoodHash(cfg.sha)
    ensures Reachable(cfg, s) && At(cfg, s, SubmittedState(cfg), EVALUATE_KEYS, 'e')
  {
    hide Reachable, At, GoodHash, Submit, RunConfig, RunEnv, Verified, SubmittedState, SUBMIT_KEYS, EVALUATE_KEYS;
    s := DraftedRun(cfg);
    Submits(cfg, s);
    Reaches(cfg, s, Workflow.Submits(OneEventEnv('d'), "owner", ID, "submit"));
    s := Submit(cfg, s, OneEventEnv('d'), "owner", ID, "submit").value;
  }

  lemma AfterEvaluation(cfg: Config) returns (s: State)
    requires cfg == RunConfig() && GoodHash(cfg.sha)
    ensures Reachable(cfg, s) && At(cfg, s, Reviewed(cfg), APPROVE_KEYS, 'f')
  {
    hide Reachable, At, GoodHash, Evaluate, RunConfig, RunEnv, SubmittedState, Reviewed, EVALUATE_KEYS, APPROVE_KEYS;
    s := AfterSubmission(cfg);
    Evaluates(cfg, s);
    Reaches(cfg, s, Workflow.Evaluates(OneEventEnv('e'), "checker", ID, "evaluate"));
    s := Evaluate(cfg, s, OneEventEnv('e'), "checker", ID, "evaluate").value;
  }

  lemma AfterApproval(cfg: Config) returns (s: State)
    requires cfg == RunConfig() && GoodHash(cfg.sha)
    ensures Reachable(cfg, s) && At(cfg, s, ApprovedState(cfg), INSTRUCT_KEYS, 'g')
  {
    hide Reachable, At, GoodHash, Approve, RunConfig, RunEnv, Reviewed, ApprovedState, APPROVE_KEYS, INSTRUCT_KEYS, APPROVAL;
    s := AfterEvaluation(cfg);
    Approves(cfg, s);
    Reaches(cfg, s, Workflow.Approves(OneEventEnv('f'), "checker", APPROVAL));
    s := Approve(cfg, s, OneEventEnv('f'), "checker", APPROVAL).value;
  }

  lemma AfterInstruction(cfg: Config) returns (s: State)
    requires cfg == RunConfig() && GoodHash(cfg.sha)
    ensures Reachable(cfg, s) && At(cfg, s, InstructedState(cfg), IMPORT_KEYS, 'h')
  {
    hide Reachable, At, GoodHash, Instruct, RunConfig, RunEnv, ApprovedState, InstructedState, INSTRUCT_KEYS, IMPORT_KEYS, INSTRUCTION;
    s := AfterApproval(cfg);
    Instructs(cfg, s);
    Reaches(cfg, s, Workflow.Instructs(OneEventEnv('g'), "payer", INSTRUCTION));
    s := Instruct(cfg, s, OneEventEnv('g'), "payer", INSTRUCTION).value;
  }

  lemma AfterImport(cfg: Config) returns (s: State)
    requires cfg == RunConfig() && GoodHash(cfg.sha)
    ensures Reachable(cfg, s)
    ensures s == SettledTables(cfg, InstructedState(cfg), RunEnv('h', 'i', 'j'), BatchContext(), SETTLED_ROW, Payment(cfg)).(chain := s.chain)
  {
    hide Reachable, At, GoodHash, ImportCsv, RunConfig, RunEnv, InstructedState, IMPORT_KEYS, CsvText, SettledTables, BatchContext, Payment, SETTLED_ROW;
    s := AfterInstruction(cfg);
    Imports(cfg, s);
    var csv := CsvText([SETTLED_ROW]);
    Reaches(cfg, s, ImportsCsv(RunEnv('h', 'i', 'j'), "payer", "checker", "batch", csv, csv));
    s := ImportCsv(cfg, s, RunEnv('h', 'i', 'j'), "payer", "checker", "batch", csv, csv).value.0;
  }

  lemma SettledDraw(cfg: Config)
    ensures var t := SettledTables(cfg, InstructedState(cfg), RunEnv('h', 'i', 'j'), BatchContext(), SETTLED_ROW, Payment(cfg));
            t.draws.Keys == {ID} && t.draws[ID].status.Reconciled? && t.draws[ID].amountApproved == Some(1)
            && |t.decisions| == 1 && t.decisions[0].approver == "checker" && |t.confirmations| == 1 && t.confirmations[0].amount == 1
            && |t.records| == 1 && t.records[0].drawId == Some(ID) && t.records[0].codes == []
            && |t.instructions| == 1
  {
    AmountIsOne();
    hide FrozenHash, Digest, Binding, AuditText, RowJson, MinorText, NumeralValue;
    var k, u := ("partner", "reference"), Payment(cfg).(status := ConfirmedByPartner);
    assert map[k := Payment(cfg)][k := u] == map[k := u];
  }

  /** Under a good hash the rules can all be met: this run ends with a draw approved by one person and reconciled by one match. */
  lemma DrawCanBeReconciled() returns (cfg: Config, s: State)
    ensures GoodHash(cfg.sha) && Reachable(cfg, s)
    ensures s.draws.Keys == {ID} && s.draws[ID].status.Reconciled? && s.draws[ID].amountApproved == Some(1)
    ensures |s.decisions| == 1 && s.decisions[0].approver == "checker" && |s.instructions| == 1
    ensures |s.confirmations| == 1 && s.confirmations[0].amount == 1
    ensures |s.records| == 1 && s.records[0].drawId == Some(ID) && s.records[0].codes == []
  {
    cfg := RunConfig();
    MarkedIsGood();
    SettledDraw(cfg);
    hide Reachable, GoodHash, RunConfig, RunEnv, SettledTables, InstructedState, BatchContext, Payment, CheckersDecision, Drafted, SETTLED_ROW;
    s := AfterImport(cfg);
  }
}
