/** When the ledger accepts an event, and a draft created under a key that was used before. */
module DraftKeys {
  import opened Decimal
  import opened CanonicalJson
  import opened EventPayloads
  import opened Ledger
  import opened Workflow
  import opened WorkflowChanges
  import opened WorkflowLog
  import opened WorkflowEvidence
  import opened WorkflowApproval
  import opened WorkflowSettlement
  import opened WorkflowRuns
  import opened WorkflowHistory

  /** A hash without collisions that never yields 64 zeros. */
  ghost predicate GoodHash(sha: string -> string) {
    CollisionFree(sha) && NeverGenesis(sha)
  }

  ghost predicate FreshEventId(s: State, id: string) {
    forall e :: e in s.chain.rows ==> e.envelope.eventId != id
  }

  /** On a sound chain, a fresh id and a JSON payload are all it takes for an event to be logged. */
  lemma LogSucceeds(cfg: Config, s: State, env: Env, at: (nat, nat), input: AppendInput)
    requires Sound(cfg.sha, s.chain) && GoodHash(cfg.sha) && FreshEventId(s, env.id(at.0, at.1))
    requires input.tenantId == cfg.tenant && input.payloadHash == "" && Valid(PayloadOf(input))
    ensures Log(cfg, s, env, at, input).Ok?
  {
    ParsePrinted(PayloadOf(input));
    var stored := Normalize(PayloadOf(input));
    var stamp := Stamp(env.id(at.0, at.1), env.now, env.now);
    FreshAppendsAreUnique(cfg.sha, s.chain, input, stored, stamp);
    hide Sound, GoodHash, AuditText, Parse, Normalize, Valid, RowOf, Unique, FindKeyed, PayloadOf;
  }

  lemma LogKeepsFresh(cfg: Config, s: State, env: Env, at: (nat, nat), input: AppendInput, id: string)
    requires Log(cfg, s, env, at, input).Ok? && FreshEventId(s, id) && id != env.id(at.0, at.1)
    ensures FreshEventId(Log(cfg, s, env, at, input).value, id)
  {
    hide AuditText, Parse, Unique, FindKeyed, PayloadHash, EventHash;
  }

  /** What creating a draft asks for: nothing in it is about the keys of other operations. */
  ghost predicate Creatable(s: State, env: Env, subject: string, input: DraftInput) {
    ParseMinor(input.amountRequested).Some? && subject != "" && input.idempotencyKey != "" && !DrawWithKey(s.draws, input.idempotencyKey)
    && RequireRole(env, subject, ["BorrowerSponsor", "OperationsOwner"], [input.dealId]).Ok?
    && input.dealId in env.deals && env.deals[input.dealId].currency == input.currency
    && Insertable(s, env, NewDraw(env, subject, env.deals[input.dealId].spvId, input, ParseMinor(input.amountRequested).value))
  }

  /** A draft is created under any key no draw has, even one the log already knows. */
  lemma CreateSucceeds(cfg: Config, s: State, env: Env, subject: string, input: DraftInput)
    requires Inv(cfg, s) && GoodHash(cfg.sha) && FreshEventId(s, env.id(0, 1)) && Creatable(s, env, subject, input)
    ensures CreateDraft(cfg, s, env, subject, input).Ok?
    ensures CreateChange(cfg, s, CreateDraft(cfg, s, env, subject, input).value, env, subject, input)
    ensures forall id :: FreshEventId(s, id) && id != env.id(0, 1) ==> FreshEventId(CreateDraft(cfg, s, env, subject, input).value, id)
  {
    StoredUnder(cfg, s);
    SoundOf(cfg, s);
    var amount := ParseMinor(input.amountRequested).value;
    var role := RequireRole(env, subject, ["BorrowerSponsor", "OperationsOwner"], [input.dealId]).value;
    hide Inv, Sound, GoodHash, FreshEventId, Log, Insertable, DrawWithKey, ParseMinor, RequireRole, CreatedPayload, CreateChange, Valid;
    CreatedPayloadValid(input, amount);
    var event := PlainEvent(cfg, subject, role, "DRAW_CREATED", "DRAW_REQUEST", env.id(0, 0), input.idempotencyKey,
                            CreatedPayload(input, amount)).(stateAfter := Some("DRAFT"));
    LogSucceeds(cfg, s, env, (0, 1), event);
    CreateChanges(cfg, s, env, subject, input);
    forall id | FreshEventId(s, id) && id != env.id(0, 1) ensures FreshEventId(CreateDraft(cfg, s, env, subject, input).value, id) {
      LogKeepsFresh(cfg, s, env, (0, 1), event, id);
      SameChainFresh(Log(cfg, s, env, (0, 1), event).value, CreateDraft(cfg, s, env, subject, input).value, id);
    }
  }

  lemma SameChainFresh(s: State, t: State, id: string)
    requires s.chain == t.chain && FreshEventId(s, id)
    ensures FreshEventId(t, id)
  {
  }

  lemma SoundOf(cfg: Config, s: State)
    requires Inv(cfg, s)
    ensures Sound(cfg.sha, s.chain)
  {
    hide EvidenceInv, ApprovalInv, SettlementInv, Sound, Replays, CreationsKeyed, StagingsKeyed, BatchesKeyed;
  }

  lemma UploadSucceeds(cfg: Config, s: State, env: Env, subject: string, input: UploadInput)
    requires Inv(cfg, s) && GoodHash(cfg.sha) && FreshEventId(s, env.id(0, 1))
    requires input.content != "" && subject != "" && input.idempotencyKey != "" && !KeyUsed(s.chain.rows, input.idempotencyKey)
    requires input.drawId in s.draws && s.draws[input.drawId].status.Draft? && input.documentType in DOCUMENT_TYPES
    requires RequireRole(env, subject, ["BorrowerSponsor", "Inspector", "OperationsOwner"], [s.draws[input.drawId].dealId]).Ok?
    requires !DocumentExists(s.documents, env.id(0, 0))
    ensures UploadEvidence(cfg, s, env, subject, input).Ok?
    ensures UploadChange(cfg, s, UploadEvidence(cfg, s, env, subject, input).value, env, subject, input)
  {
    SoundOf(cfg, s);
    var d := s.draws[input.drawId];
    var role := RequireRole(env, subject, ["BorrowerSponsor", "Inspector", "OperationsOwner"], [d.dealId]).value;
    var doc := NewDocument(cfg, s, env, subject, d, input);
    var eventType := if doc.supersedes.Some? then "EVIDENCE_SUPERSEDED" else "EVIDENCE_UPLOADED";
    var event := PlainEvent(cfg, subject, role, eventType, "DRAW_REQUEST", d.id, input.idempotencyKey, UploadedPayload(doc));
    hide Inv, Sound, GoodHash, FreshEventId, Log, RequireRole, UploadedPayload, UploadChange, Valid, Latest, Digest, KeyUsed, DocumentExists;
    UploadedPayloadValid(doc);
    LogSucceeds(cfg, s, env, (0, 1), event);
    LogKeepsTables(cfg, s, env, (0, 1), event);
    UploadChanges(cfg, s, env, subject, input);
  }

  lemma UploadKeepsFresh(cfg: Config, s: State, env: Env, subject: string, input: UploadInput, id: string)
    requires UploadEvidence(cfg, s, env, subject, input).Ok? && !KeyUsed(s.chain.rows, input.idempotencyKey)
    requires FreshEventId(s, id) && id != env.id(0, 1)
    ensures FreshEventId(UploadEvidence(cfg, s, env, subject, input).value, id)
  {
    hide FreshEventId, Log, RequireRole, UploadedPayload, Latest, Digest, KeyUsed, DocumentExists, HasContent;
    var d := s.draws[input.drawId];
    var role := RequireRole(env, subject, ["BorrowerSponsor", "Inspector", "OperationsOwner"], [d.dealId]).value;
    var doc := NewDocument(cfg, s, env, subject, d, input);
    var eventType := if doc.supersedes.Some? then "EVIDENCE_SUPERSEDED" else "EVIDENCE_UPLOADED";
    var event := PlainEvent(cfg, subject, role, eventType, "DRAW_REQUEST", d.id, input.idempotencyKey, UploadedPayload(doc));
    LogKeepsFresh(cfg, s, env, (0, 1), event, id);
    SameChainFresh(Log(cfg, s, env, (0, 1), event).value, UploadEvidence(cfg, s, env, subject, input).value, id);
  }

  lemma LogKeepsTables(cfg: Config, s: State, env: Env, at: (nat, nat), input: AppendInput)
    requires Log(cfg, s, env, at, input).Ok?
    ensures Log(cfg, s, env, at, input).value == s.(chain := Log(cfg, s, env, at, input).value.chain)
  {
  }

  // ---------------------------------------------------------------------------
  // A run that uses one key for an upload and then for a second draft
  // ---------------------------------------------------------------------------

  function Marked(text: string): string { "x" + text }

  lemma MarkedIsGood()
    ensures GoodHash(Marked)
  {
    forall a, b | Marked(a) == Marked(b) ensures a == b { SamePrefix("x", a, b); }
    assert GENESIS[0] == '0';
    forall a ensures Marked(a) != GENESIS { assert Marked(a)[0] == 'x'; }
  }

  function SampleConfig(): Config { Config("tenant", map[], Marked) }

  /** One operations owner, one deal, one payee; ids start with the given letter. */
  function SampleEnv(letter: char): Env {
    Env("2026-01-01T00:00:00Z", 0, (i: nat, j: nat) => [letter, if j == 0 then 'r' else 'e'],
        map["deal" := Deal("spv", "EUR", "policy")], map["account" := Account("ref", "EUR", true, None)],
        map["payee" := Counterparty(true, None)], {Grant("owner", "OperationsOwner", None, false)}, {})
  }

  function SampleDraft(number: string, key: string): DraftInput {
    DraftInput("deal", number, "payee", "account", "1", "EUR", [], key)
  }

  const SAMPLE_UPLOAD := UploadInput("ar", "INVOICE", "content", "shared")

  lemma SampleRoles(letter: char)
    ensures RequireRole(SampleEnv(letter), "owner", ["BorrowerSponsor", "OperationsOwner"], ["deal"]).Ok?
    ensures RequireRole(SampleEnv(letter), "owner", ["BorrowerSponsor", "Inspector", "OperationsOwner"], ["deal"]).Ok?
  {
    var env := SampleEnv(letter);
    assert Grant("owner", "OperationsOwner", None, false) in env.grants;
    assert HoldsRole(env, "owner", "OperationsOwner", ["deal"]);
    assert ["BorrowerSponsor", "OperationsOwner"][1..] == ["OperationsOwner"];
    assert ["BorrowerSponsor", "Inspector", "OperationsOwner"][1..] == ["Inspector", "OperationsOwner"];
    assert ["Inspector", "OperationsOwner"][1..] == ["OperationsOwner"];
  }

  lemma SampleAmount()
    ensures ParseMinor("1") == Some(1)
  {
    assert "1"[..0] == "";
    assert NumeralValue("1") == 1;
  }

  lemma SampleCreatable(s: State, letter: char, number: string, key: string)
    requires key != "" && [letter, 'r'] !in s.draws && !DrawWithKey(s.draws, key) && !NumberTaken(s.draws, number)
    ensures Creatable(s, SampleEnv(letter), "owner", SampleDraft(number, key))
  {
    SampleRoles(letter);
    SampleAmount();
    hide RequireRole, ParseMinor, DrawWithKey, NumberTaken;
  }

  /** After the first draft. */
  ghost predicate FirstDraft(cfg: Config, s: State) {
    Inv(cfg, s) && s.draws.Keys == {"ar"} && s.draws["ar"].status.Draft? && s.draws["ar"].dealId == "deal" && s.documents == []
    && s.draws["ar"].idempotencyKey == "own" && s.draws["ar"].requestNumber == "first"
    && |s.chain.rows| == 1 && s.chain.rows[0].envelope.idempotencyKey == "own" && FreshEventId(s, "be") && FreshEventId(s, "ce")
  }

  const FIRST_DRAFT := SampleDraft("first", "own")
  const SECOND_DRAFT := SampleDraft("second", "shared")

  lemma SampleFirst(cfg: Config, env: Env)
    requires cfg == SampleConfig() && env == SampleEnv('a')
    ensures CreateDraft(cfg, INITIAL, env, "owner", FIRST_DRAFT).Ok? && FirstDraft(cfg, CreateDraft(cfg, INITIAL, env, "owner", FIRST_DRAFT).value)
  {
    MarkedIsGood();
    InitialInv(cfg);
    SampleCreatable(INITIAL, 'a', "first", "own");
    assert FreshEventId(INITIAL, "ae") && FreshEventId(INITIAL, "be") && FreshEventId(INITIAL, "ce");
    assert env.id(0, 1) == "ae";
    hide Inv, CreateDraft, CreateChange, Creatable, GoodHash, FreshEventId, SampleEnv, SampleConfig, SampleDraft, INITIAL;
    CreateSucceeds(cfg, INITIAL, env, "owner", FIRST_DRAFT);
    CreateKeepsInv(cfg, INITIAL, env, "owner", FIRST_DRAFT);
    SampleCreated(cfg, CreateDraft(cfg, INITIAL, env, "owner", FIRST_DRAFT).value);
  }

  /** After the upload: the key "shared" is used, by no draw. */
  ghost predicate SharedKeyUsed(cfg: Config, s: State) {
    Inv(cfg, s) && s.draws.Keys == {"ar"} && FreshEventId(s, "ce")
    && KeyUsed(s.chain.rows, "shared") && !DrawWithKey(s.draws, "shared") && !NumberTaken(s.draws, "second")
  }

  lemma SampleSecond(cfg: Config, s: State, env: Env)
    requires cfg == SampleConfig() && FirstDraft(cfg, s) && env == SampleEnv('b')
    ensures UploadEvidence(cfg, s, env, "owner", SAMPLE_UPLOAD).Ok? && SharedKeyUsed(cfg, UploadEvidence(cfg, s, env, "owner", SAMPLE_UPLOAD).value)
  {
    MarkedIsGood();
    SampleRoles('b');
    assert !DocumentExists(s.documents, "br") && !KeyUsed(s.chain.rows, "shared");
    assert env.id(0, 0) == "br" && env.id(0, 1) == "be";
    hide Inv, RequireRole, UploadEvidence, UploadChange, GoodHash, FreshEventId, SampleEnv, KeyUsed, DocumentExists, SampleConfig;
    UploadSucceeds(cfg, s, env, "owner", SAMPLE_UPLOAD);
    UploadKeepsInv(cfg, s, env, "owner", SAMPLE_UPLOAD);
    UploadKeepsFresh(cfg, s, env, "owner", SAMPLE_UPLOAD, "ce");
    SampleUploaded(cfg, s, UploadEvidence(cfg, s, env, "owner", SAMPLE_UPLOAD).value);
  }

  lemma SampleRun(cfg: Config, env: Env, input: DraftInput, later: Env, upload: UploadInput)
    requires CreateDraft(cfg, INITIAL, env, "owner", input).Ok?
    requires UploadEvidence(cfg, CreateDraft(cfg, INITIAL, env, "owner", input).value, later, "owner", upload).Ok?
    ensures Reachable(cfg, UploadEvidence(cfg, CreateDraft(cfg, INITIAL, env, "owner", input).value, later, "owner", upload).value)
  {
    hide CreateDraft, UploadEvidence, INITIAL;
    var a, b := CreatesDraft(env, "owner", input), UploadsEvidence(later, "owner", upload);
    assert [a, b][..1] == [a] && [a][..0] == [];
    assert Run(cfg, INITIAL, [a]) == Step(cfg, INITIAL, a);
    assert Run(cfg, INITIAL, [a, b]) == Step(cfg, Step(cfg, INITIAL, a), b);
  }

  lemma SampleCreated(cfg: Config, s1: State)
    requires CreateChange(cfg, INITIAL, s1, SampleEnv('a'), "owner", SampleDraft("first", "own"))
    ensures s1.draws.Keys == {"ar"} && s1.draws["ar"].status.Draft? && s1.draws["ar"].dealId == "deal" && s1.documents == []
    ensures s1.draws["ar"].idempotencyKey == "own" && s1.draws["ar"].requestNumber == "first"
    ensures |s1.chain.rows| == 1 && s1.chain.rows[0].envelope.idempotencyKey == "own"
  {
    hide ParseMinor, Sound;
  }

  lemma SampleUploaded(cfg: Config, s1: State, s: State)
    requires UploadChange(cfg, s1, s, SampleEnv('b'), "owner", SAMPLE_UPLOAD)
    requires s1.draws.Keys == {"ar"} && s1.draws["ar"].idempotencyKey == "own" && s1.draws["ar"].requestNumber == "first"
    ensures s.draws == s1.draws && KeyUsed(s.chain.rows, "shared") && !DrawWithKey(s.draws, "shared") && !NumberTaken(s.draws, "second")
  {
    assert s.chain.rows[|s1.chain.rows|] in s.chain.rows;
    assert s.chain.rows[|s1.chain.rows|].envelope.idempotencyKey == "shared";
  }

  lemma SharedKeyReachable(cfg: Config) returns (s: State)
    requires cfg == SampleConfig()
    ensures Reachable(cfg, s) && SharedKeyUsed(cfg, s)
  {
    hide Reachable, Inv, FirstDraft, SharedKeyUsed, CreateDraft, UploadEvidence, SampleConfig, SampleEnv, SampleDraft, INITIAL;
    SampleFirst(cfg, SampleEnv('a'));
    var s1 := CreateDraft(cfg, INITIAL, SampleEnv('a'), "owner", FIRST_DRAFT).value;
    SampleSecond(cfg, s1, SampleEnv('b'));
    SampleRun(cfg, SampleEnv('a'), FIRST_DRAFT, SampleEnv('b'), SAMPLE_UPLOAD);
    s := UploadEvidence(cfg, s1, SampleEnv('b'), "owner", SAMPLE_UPLOAD).value;
  }

  lemma SharedKeyCreates(cfg: Config, s: State, env: Env)
    requires cfg == SampleConfig() && SharedKeyUsed(cfg, s) && env == SampleEnv('c')
    ensures CreateDraft(cfg, s, env, "owner", SECOND_DRAFT).Ok? && |CreateDraft(cfg, s, env, "owner", SECOND_DRAFT).value.draws| == |s.draws| + 1
  {
    MarkedIsGood();
    assert "cr" !in s.draws && env.id(0, 0) == "cr" && env.id(0, 1) == "ce";
    hide Inv, KeyUsed, CreateDraft, GoodHash, FreshEventId, DrawWithKey, NumberTaken, RequireRole;
    SampleCreatable(s, 'c', "second", "shared");
    hide Creatable, SampleEnv, SampleDraft, SampleConfig;
    CreateSucceeds(cfg, s, env, "owner", SECOND_DRAFT);
    SecondDraftAdds(cfg, s, CreateDraft(cfg, s, env, "owner", SECOND_DRAFT).value, env, SECOND_DRAFT);
  }

  /** The promise that a used key repeats instead of acting fails for drafts: this run creates a second one. */
  lemma UsedKeyCanCreate() returns (cfg: Config, s: State, env: Env, input: DraftInput)
    ensures Reachable(cfg, s) && KeyUsed(s.chain.rows, input.idempotencyKey)
    ensures CreateDraft(cfg, s, env, "owner", input).Ok? && |CreateDraft(cfg, s, env, "owner", input).value.draws| == |s.draws| + 1
  {
    cfg, env, input := SampleConfig(), SampleEnv('c'), SECOND_DRAFT;
    hide Reachable, Inv, KeyUsed, CreateDraft, FreshEventId, DrawWithKey, NumberTaken;
    s := SharedKeyReachable(cfg);
    SharedKeyCreates(cfg, s, env);
  }

  lemma SecondDraftAdds(cfg: Config, s: State, t: State, env: Env, input: DraftInput)
    requires CreateChange(cfg, s, t, env, "owner", input)
    ensures |t.draws| == |s.draws| + 1
  {
    hide ParseMinor, Extended, RowChecks, NumberTaken, DrawWithKey;
    assert t.draws.Keys == s.draws.Keys + {env.id(0, 0)};
  }
}
