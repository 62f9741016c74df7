/**
 * The texts the workflow hashes and logs, field by field in key order: the payload
 * of every event, a confirmed row, and the terms an approval is bound to.
 */
module EventTexts {
  import opened Ordering
  import opened Decimal
  import opened CanonicalJson
  import opened CanonicalText
  import opened EventRecords
  import opened Ledger
  import opened ConfirmationCsv
  import opened Workflow

  lemma CreatedKeys()
    ensures ComesBefore("amount_requested_minor", "currency")
    ensures ComesBefore("currency", "deal_id")
  {
    Differ("amount_requested_minor", "currency", 0);
    Differ("currency", "deal_id", 0);
  }

  lemma CreatedKeysMore()
    ensures ComesBefore("deal_id", "payee_bank_account_id")
    ensures ComesBefore("payee_bank_account_id", "request_number")
  {
    Differ("deal_id", "payee_bank_account_id", 0);
    Differ("payee_bank_account_id", "request_number", 0);
  }

  lemma CreatedKeysPlain()
    ensures PlainKey("amount_requested_minor") && PlainKey("currency") && PlainKey("deal_id")
  {
  }

  lemma CreatedKeysPlainMore()
    ensures PlainKey("payee_bank_account_id") && PlainKey("request_number")
  {
  }

  function CreatedFields(input: DraftInput, amount: nat): (fs: seq<(string, string)>)
    ensures |fs| == 5
  {
    [ ("amount_requested_minor", Quote(Numeral(amount))),
      ("currency", Quote(input.currency)),
      ("deal_id", Quote(input.dealId)),
      ("payee_bank_account_id", Quote(input.payeeBankAccountId)),
      ("request_number", Quote(input.requestNumber)) ]
  }

  function CreatedSorted(input: DraftInput, amount: nat): (ms: seq<Member>)
    ensures |ms| == 5
  {
    var ms := CreatedPayload(input, amount).members;
    [ms[2], ms[3], ms[0], ms[4], ms[1]]
  }

  lemma CreatedAscends(input: DraftInput, amount: nat)
    ensures forall i :: 0 <= i < 4 ==> ComesBefore(CreatedSorted(input, amount)[i].key, CreatedSorted(input, amount)[i + 1].key)
  {
    CreatedKeys();
    CreatedKeysMore();
    hide ComesBefore, PlainKey, AuditText, Fields, Quote, Numeral, NullableText, Nullable, Strings, SortBy, ItemsJson, RuleResults, CodesJson, RowsJson, RowJson, ManifestComplete, CovenantName;
  }

  lemma CreatedPlain(input: DraftInput, amount: nat)
    ensures forall i :: 0 <= i < 5 ==> PlainKey(CreatedSorted(input, amount)[i].key)
  {
    CreatedKeysPlain();
    CreatedKeysPlainMore();
    hide ComesBefore, PlainKey, AuditText, Fields, Quote, Numeral, NullableText, Nullable, Strings, SortBy, ItemsJson, RuleResults, CodesJson, RowsJson, RowJson, ManifestComplete, CovenantName;
  }

  lemma CreatedValues(input: DraftInput, amount: nat)
    ensures forall i :: 0 <= i < 5 ==> CreatedFields(input, amount)[i] == (CreatedSorted(input, amount)[i].key, AuditText(CreatedSorted(input, amount)[i].value))
  {
    var ms := CreatedPayload(input, amount).members;
    ScalarsPrint(ms[0].value);
    ScalarsPrint(ms[1].value);
    ScalarsPrint(ms[2].value);
    ScalarsPrint(ms[3].value);
    ScalarsPrint(ms[4].value);
    hide ComesBefore, PlainKey, AuditText, Fields, Quote, Numeral, NullableText, Nullable, Strings, SortBy, ItemsJson, RuleResults, CodesJson, RowsJson, RowJson, ManifestComplete, CovenantName;
  }

  /** The event of a new draw. */
  lemma CreatedPrints(input: DraftInput, amount: nat)
    ensures AuditText(CreatedPayload(input, amount)) == "{" + Fields(CreatedFields(input, amount)) + "}"
  {
    CreatedAscends(input, amount);
    CreatedPlain(input, amount);
    CreatedValues(input, amount);
    hide ComesBefore, PlainKey, AuditText, Fields, Quote, Numeral, NullableText, Nullable, Strings, SortBy, ItemsJson, RuleResults, CodesJson, RowsJson, RowJson, ManifestComplete, CovenantName, CreatedFields;
    ObjectFields(CreatedPayload(input, amount).members, CreatedSorted(input, amount), CreatedFields(input, amount));
  }

  lemma UploadedKeys()
    ensures ComesBefore("content_hash", "document_id")
    ensures ComesBefore("document_id", "document_type")
  {
    Differ("content_hash", "document_id", 0);
    Differ("document_id", "document_type", 9);
  }

  lemma UploadedKeysMore()
    ensures ComesBefore("document_type", "supersedes_id")
    ensures ComesBefore("supersedes_id", "version")
  {
    Differ("document_type", "supersedes_id", 0);
    Differ("supersedes_id", "version", 0);
  }

  lemma UploadedKeysPlain()
    ensures PlainKey("content_hash") && PlainKey("document_id") && PlainKey("document_type")
  {
  }

  lemma UploadedKeysPlainMore()
    ensures PlainKey("supersedes_id") && PlainKey("version")
  {
  }

  function UploadedFields(d: Document): (fs: seq<(string, string)>)
    ensures |fs| == 5
  {
    [ ("content_hash", Quote(d.contentHash)),
      ("document_id", Quote(d.id)),
      ("document_type", Quote(d.documentType)),
      ("supersedes_id", NullableText(d.supersedes)),
      ("version", Numeral(d.version)) ]
  }

  function UploadedSorted(d: Document): (ms: seq<Member>)
    ensures |ms| == 5
  {
    var ms := UploadedPayload(d).members;
    [ms[2], ms[0], ms[1], ms[4], ms[3]]
  }

  lemma UploadedAscends(d: Document)
    ensures forall i :: 0 <= i < 4 ==> ComesBefore(UploadedSorted(d)[i].key, UploadedSorted(d)[i + 1].key)
  {
    UploadedKeys();
    UploadedKeysMore();
    hide ComesBefore, PlainKey, AuditText, Fields, Quote, Numeral, NullableText, Nullable, Strings, SortBy, ItemsJson, RuleResults, CodesJson, RowsJson, RowJson, ManifestComplete, CovenantName;
  }

  lemma UploadedPlain(d: Document)
    ensures forall i :: 0 <= i < 5 ==> PlainKey(UploadedSorted(d)[i].key)
  {
    UploadedKeysPlain();
    UploadedKeysPlainMore();
    hide ComesBefore, PlainKey, AuditText, Fields, Quote, Numeral, NullableText, Nullable, Strings, SortBy, ItemsJson, RuleResults, CodesJson, RowsJson, RowJson, ManifestComplete, CovenantName;
  }

  lemma UploadedValues(d: Document)
    ensures forall i :: 0 <= i < 5 ==> UploadedFields(d)[i] == (UploadedSorted(d)[i].key, AuditText(UploadedSorted(d)[i].value))
  {
    var ms := UploadedPayload(d).members;
    ScalarsPrint(ms[0].value);
    ScalarsPrint(ms[1].value);
    ScalarsPrint(ms[2].value);
    ScalarsPrint(ms[3].value);
    NullablePrints(d.supersedes);
    hide ComesBefore, PlainKey, AuditText, Fields, Quote, Numeral, NullableText, Nullable, Strings, SortBy, ItemsJson, RuleResults, CodesJson, RowsJson, RowJson, ManifestComplete, CovenantName;
  }

  /** The event of an upload. */
  lemma UploadedPrints(d: Document)
    ensures AuditText(UploadedPayload(d)) == "{" + Fields(UploadedFields(d)) + "}"
  {
    UploadedAscends(d);
    UploadedPlain(d);
    UploadedValues(d);
    hide ComesBefore, PlainKey, AuditText, Fields, Quote, Numeral, NullableText, Nullable, Strings, SortBy, ItemsJson, RuleResults, CodesJson, RowsJson, RowJson, ManifestComplete, CovenantName, UploadedFields;
    ObjectFields(UploadedPayload(d).members, UploadedSorted(d), UploadedFields(d));
  }

  lemma VerifiedKeys()
    ensures ComesBefore("content_hash", "document_id")
  {
    Differ("content_hash", "document_id", 0);
  }

  lemma VerifiedKeysPlain()
    ensures PlainKey("content_hash") && PlainKey("document_id")
  {
  }

  /** The event of a verification. */
  lemma VerifiedPrints(documentId: string, contentHash: string)
    ensures AuditText(VerifiedPayload(documentId, contentHash)) ==
            "{" + Fields([ ("content_hash", Quote(contentHash)),
                           ("document_id", Quote(documentId)) ]) + "}"
  {
    VerifiedKeys();
    VerifiedKeysPlain();
    var ms := VerifiedPayload(documentId, contentHash).members;
    var sorted := [ms[1], ms[0]];
    ScalarsPrint(ms[0].value);
    ScalarsPrint(ms[1].value);
    hide ComesBefore, PlainKey, AuditText, Fields, Quote, Numeral, NullableText, Nullable, Strings, SortBy, ItemsJson, RuleResults, CodesJson, RowsJson, RowJson, ManifestComplete, CovenantName;
    ObjectFields(ms, sorted, [ ("content_hash", Quote(contentHash)),
                           ("document_id", Quote(documentId)) ]);
  }

  lemma SubmittedKeys()
    ensures ComesBefore("documents", "manifest_hash")
    ensures ComesBefore("manifest_hash", "policy_version")
  {
    Differ("documents", "manifest_hash", 0);
    Differ("manifest_hash", "policy_version", 0);
  }

  lemma SubmittedKeysPlain()
    ensures PlainKey("documents") && PlainKey("manifest_hash") && PlainKey("policy_version")
  {
  }

  /** The event of a submission. */
  lemma SubmittedPrints(hash: string, policyVersion: string, documents: seq<Document>)
    ensures AuditText(SubmittedPayload(hash, policyVersion, documents)) ==
            "{" + Fields([ ("documents", AuditText(Arr(ItemsJson(documents)))),
                           ("manifest_hash", Quote(hash)),
                           ("policy_version", Quote(policyVersion)) ]) + "}"
  {
    SubmittedKeys();
    SubmittedKeysPlain();
    var ms := SubmittedPayload(hash, policyVersion, documents).members;
    var sorted := [ms[2], ms[0], ms[1]];
    ScalarsPrint(ms[0].value);
    ScalarsPrint(ms[1].value);
    hide ComesBefore, PlainKey, AuditText, Fields, Quote, Numeral, NullableText, Nullable, Strings, SortBy, ItemsJson, RuleResults, CodesJson, RowsJson, RowJson, ManifestComplete, CovenantName;
    ObjectFields(ms, sorted, [ ("documents", AuditText(Arr(ItemsJson(documents)))),
                           ("manifest_hash", Quote(hash)),
                           ("policy_version", Quote(policyVersion)) ]);
  }

  lemma EvaluatedKeys()
    ensures ComesBefore("policy_evaluation_id", "result")
    ensures ComesBefore("result", "rule_results")
  {
    Differ("policy_evaluation_id", "result", 0);
    Differ("result", "rule_results", 1);
  }

  lemma EvaluatedKeysPlain()
    ensures PlainKey("policy_evaluation_id") && PlainKey("result") && PlainKey("rule_results")
  {
  }

  /** The event of an evaluation. */
  lemma EvaluatedPrints(s: State, drawId: string, evaluationId: string, pack: PolicyPack)
    ensures AuditText(EvaluatedPayload(s, drawId, evaluationId, pack)) ==
            "{" + Fields([ ("policy_evaluation_id", Quote(evaluationId)),
                           ("result", Quote(if ManifestComplete(s, drawId, pack) then "PASS" else "HOLD")),
                           ("rule_results", AuditText(Arr(RuleResults(s, drawId, pack.requiredEvidence)))) ]) + "}"
  {
    EvaluatedKeys();
    EvaluatedKeysPlain();
    var ms := EvaluatedPayload(s, drawId, evaluationId, pack).members;
    var sorted := [ms[0], ms[1], ms[2]];
    ScalarsPrint(ms[0].value);
    ScalarsPrint(ms[1].value);
    hide ComesBefore, PlainKey, AuditText, Fields, Quote, Numeral, NullableText, Nullable, Strings, SortBy, ItemsJson, RuleResults, CodesJson, RowsJson, RowJson, ManifestComplete, CovenantName;
    ObjectFields(ms, sorted, [ ("policy_evaluation_id", Quote(evaluationId)),
                           ("result", Quote(if ManifestComplete(s, drawId, pack) then "PASS" else "HOLD")),
                           ("rule_results", AuditText(Arr(RuleResults(s, drawId, pack.requiredEvidence)))) ]);
  }

  lemma DecisionKeys()
    ensures ComesBefore("amount_approved_minor", "approval_binding_hash")
    ensures ComesBefore("approval_binding_hash", "controls")
  {
    Differ("amount_approved_minor", "approval_binding_hash", 1);
    Differ("approval_binding_hash", "controls", 0);
  }

  lemma DecisionKeysPlain()
    ensures PlainKey("amount_approved_minor") && PlainKey("approval_binding_hash") && PlainKey("controls")
  {
  }

  /** The event of an approval. */
  lemma DecisionPrints(bindingHash: string, amount: nat, c: Controls)
    ensures AuditText(DecisionPayload(bindingHash, amount, c)) ==
            "{" + Fields([ ("amount_approved_minor", Quote(Numeral(amount))),
                           ("approval_binding_hash", Quote(bindingHash)),
                           ("controls", AuditText(DecisionPayload(bindingHash, amount, c).members[2].value)) ]) + "}"
  {
    DecisionKeys();
    DecisionKeysPlain();
    var ms := DecisionPayload(bindingHash, amount, c).members;
    var sorted := [ms[1], ms[0], ms[2]];
    ScalarsPrint(ms[0].value);
    ScalarsPrint(ms[1].value);
    hide ComesBefore, PlainKey, AuditText, Fields, Quote, Numeral, NullableText, Nullable, Strings, SortBy, ItemsJson, RuleResults, CodesJson, RowsJson, RowJson, ManifestComplete, CovenantName;
    ObjectFields(ms, sorted, [ ("amount_approved_minor", Quote(Numeral(amount))),
                           ("approval_binding_hash", Quote(bindingHash)),
                           ("controls", AuditText(DecisionPayload(bindingHash, amount, c).members[2].value)) ]);
  }

  lemma InstructedKeys()
    ensures ComesBefore("amount_minor", "approval_binding_hash")
    ensures ComesBefore("approval_binding_hash", "currency")
  {
    Differ("amount_minor", "approval_binding_hash", 1);
    Differ("approval_binding_hash", "currency", 0);
  }

  lemma InstructedKeysMore()
    ensures ComesBefore("currency", "external_partner_id")
    ensures ComesBefore("external_partner_id", "payee_bank_account_id")
  {
    Differ("currency", "external_partner_id", 0);
    Differ("external_partner_id", "payee_bank_account_id", 0);
  }

  lemma InstructedKeysLast()
    ensures ComesBefore("payee_bank_account_id", "settlement_reference")
  {
    Differ("payee_bank_account_id", "settlement_reference", 0);
  }

  lemma InstructedKeysPlain()
    ensures PlainKey("amount_minor") && PlainKey("approval_binding_hash") && PlainKey("currency")
  {
  }

  lemma InstructedKeysPlainMore()
    ensures PlainKey("external_partner_id") && PlainKey("payee_bank_account_id") && PlainKey("settlement_reference")
  {
  }

  function InstructedFields(d: DrawRequest, input: InstructInput): (fs: seq<(string, string)>)
    ensures |fs| == 6
  {
    [ ("amount_minor", if d.amountApproved.Some? && d.amountApproved.value >= 0 then Quote(Numeral(d.amountApproved.value)) else "null"),
      ("approval_binding_hash", NullableText(d.approvalBindingHash)),
      ("currency", Quote(d.currency)),
      ("external_partner_id", Quote(input.externalPartnerId)),
      ("payee_bank_account_id", Quote(d.payeeBankAccountId)),
      ("settlement_reference", Quote(input.settlementReference)) ]
  }

  function InstructedSorted(d: DrawRequest, input: InstructInput): (ms: seq<Member>)
    ensures |ms| == 6
  {
    var ms := InstructedPayload(d, input).members;
    [ms[2], ms[5], ms[3], ms[0], ms[4], ms[1]]
  }

  lemma InstructedAscends(d: DrawRequest, input: InstructInput)
    ensures forall i :: 0 <= i < 5 ==> ComesBefore(InstructedSorted(d, input)[i].key, InstructedSorted(d, input)[i + 1].key)
  {
    InstructedKeys();
    InstructedKeysMore();
    InstructedKeysLast();
    hide ComesBefore, PlainKey, AuditText, Fields, Quote, Numeral, NullableText, Nullable, Strings, SortBy, ItemsJson, RuleResults, CodesJson, RowsJson, RowJson, ManifestComplete, CovenantName;
  }

  lemma InstructedPlain(d: DrawRequest, input: InstructInput)
    ensures forall i :: 0 <= i < 6 ==> PlainKey(InstructedSorted(d, input)[i].key)
  {
    InstructedKeysPlain();
    InstructedKeysPlainMore();
    hide ComesBefore, PlainKey, AuditText, Fields, Quote, Numeral, NullableText, Nullable, Strings, SortBy, ItemsJson, RuleResults, CodesJson, RowsJson, RowJson, ManifestComplete, CovenantName;
  }

  lemma InstructedValues(d: DrawRequest, input: InstructInput)
    ensures forall i :: 0 <= i < 6 ==> InstructedFields(d, input)[i] == (InstructedSorted(d, input)[i].key, AuditText(InstructedSorted(d, input)[i].value))
  {
    var ms := InstructedPayload(d, input).members;
    ScalarsPrint(ms[0].value);
    ScalarsPrint(ms[1].value);
    ScalarsPrint(ms[2].value);
    ScalarsPrint(ms[3].value);
    ScalarsPrint(ms[4].value);
    NullablePrints(d.approvalBindingHash);
    hide ComesBefore, PlainKey, AuditText, Fields, Quote, Numeral, NullableText, Nullable, Strings, SortBy, ItemsJson, RuleResults, CodesJson, RowsJson, RowJson, ManifestComplete, CovenantName;
  }

  /** The event of an instruction. */
  lemma InstructedPrints(d: DrawRequest, input: InstructInput)
    ensures AuditText(InstructedPayload(d, input)) == "{" + Fields(InstructedFields(d, input)) + "}"
  {
    InstructedAscends(d, input);
    InstructedPlain(d, input);
    InstructedValues(d, input);
    hide ComesBefore, PlainKey, AuditText, Fields, Quote, Numeral, NullableText, Nullable, Strings, SortBy, ItemsJson, RuleResults, CodesJson, RowsJson, RowJson, ManifestComplete, CovenantName, InstructedFields;
    ObjectFields(InstructedPayload(d, input).members, InstructedSorted(d, input), InstructedFields(d, input));
  }

  lemma StagedKeys()
    ensures ComesBefore("first_entry_hash", "rows")
  {
    Differ("first_entry_hash", "rows", 0);
  }

  lemma StagedKeysPlain()
    ensures PlainKey("first_entry_hash") && PlainKey("rows")
  {
  }

  /** The event of a staging. */
  lemma StagedPrints(hash: string, rows: nat)
    ensures AuditText(StagedPayload(hash, rows)) ==
            "{" + Fields([ ("first_entry_hash", Quote(hash)),
                           ("rows", Numeral(rows)) ]) + "}"
  {
    StagedKeys();
    StagedKeysPlain();
    var ms := StagedPayload(hash, rows).members;
    var sorted := [ms[0], ms[1]];
    ScalarsPrint(ms[0].value);
    ScalarsPrint(ms[1].value);
    hide ComesBefore, PlainKey, AuditText, Fields, Quote, Numeral, NullableText, Nullable, Strings, SortBy, ItemsJson, RuleResults, CodesJson, RowsJson, RowJson, ManifestComplete, CovenantName;
    ObjectFields(ms, sorted, [ ("first_entry_hash", Quote(hash)),
                           ("rows", Numeral(rows)) ]);
  }

  lemma BreakKeys()
    ensures ComesBefore("mismatch_codes", "row")
  {
    Differ("mismatch_codes", "row", 0);
  }

  lemma BreakKeysPlain()
    ensures PlainKey("mismatch_codes") && PlainKey("row")
  {
  }

  /** The event of an exception row. */
  lemma BreakPrints(codes: seq<Mismatch>, row: CsvRow)
    ensures AuditText(BreakPayload(codes, row)) ==
            "{" + Fields([ ("mismatch_codes", AuditText(CodesJson(codes))),
                           ("row", AuditText(RowJson(row))) ]) + "}"
  {
    BreakKeys();
    BreakKeysPlain();
    var ms := BreakPayload(codes, row).members;
    var sorted := [ms[0], ms[1]];
    hide ComesBefore, PlainKey, AuditText, Fields, Quote, Numeral, NullableText, Nullable, Strings, SortBy, ItemsJson, RuleResults, CodesJson, RowsJson, RowJson, ManifestComplete, CovenantName;
    ObjectFields(ms, sorted, [ ("mismatch_codes", AuditText(CodesJson(codes))),
                           ("row", AuditText(RowJson(row))) ]);
  }

  lemma ConfirmedKeys()
    ensures ComesBefore("row", "settlement_confirmation_id")
  {
    Differ("row", "settlement_confirmation_id", 0);
  }

  lemma ConfirmedKeysPlain()
    ensures PlainKey("row") && PlainKey("settlement_confirmation_id")
  {
  }

  /** The event of a confirmation. */
  lemma ConfirmedPrints(confirmationId: string, row: CsvRow)
    ensures AuditText(ConfirmedPayload(confirmationId, row)) ==
            "{" + Fields([ ("row", AuditText(RowJson(row))),
                           ("settlement_confirmation_id", Quote(confirmationId)) ]) + "}"
  {
    ConfirmedKeys();
    ConfirmedKeysPlain();
    var ms := ConfirmedPayload(confirmationId, row).members;
    var sorted := [ms[1], ms[0]];
    ScalarsPrint(ms[0].value);
    hide ComesBefore, PlainKey, AuditText, Fields, Quote, Numeral, NullableText, Nullable, Strings, SortBy, ItemsJson, RuleResults, CodesJson, RowsJson, RowJson, ManifestComplete, CovenantName;
    ObjectFields(ms, sorted, [ ("row", AuditText(RowJson(row))),
                           ("settlement_confirmation_id", Quote(confirmationId)) ]);
  }

  lemma ReconciledKeys()
    ensures ComesBefore("settlement_confirmation_id", "settlement_instruction_id")
  {
    Differ("settlement_confirmation_id", "settlement_instruction_id", 11);
  }

  lemma ReconciledKeysPlain()
    ensures PlainKey("settlement_confirmation_id") && PlainKey("settlement_instruction_id")
  {
  }

  /** The event of a reconciled row. */
  lemma ReconciledPrints(confirmationId: string, instructionId: string)
    ensures AuditText(ReconciledPayload(confirmationId, instructionId)) ==
            "{" + Fields([ ("settlement_confirmation_id", Quote(confirmationId)),
                           ("settlement_instruction_id", Quote(instructionId)) ]) + "}"
  {
    ReconciledKeys();
    ReconciledKeysPlain();
    var ms := ReconciledPayload(confirmationId, instructionId).members;
    var sorted := [ms[0], ms[1]];
    ScalarsPrint(ms[0].value);
    ScalarsPrint(ms[1].value);
    hide ComesBefore, PlainKey, AuditText, Fields, Quote, Numeral, NullableText, Nullable, Strings, SortBy, ItemsJson, RuleResults, CodesJson, RowsJson, RowJson, ManifestComplete, CovenantName;
    ObjectFields(ms, sorted, [ ("settlement_confirmation_id", Quote(confirmationId)),
                           ("settlement_instruction_id", Quote(instructionId)) ]);
  }

  lemma ExceptionKeys()
    ensures ComesBefore("mismatch_codes", "settlement_confirmation_id")
  {
    Differ("mismatch_codes", "settlement_confirmation_id", 0);
  }

  lemma ExceptionKeysPlain()
    ensures PlainKey("mismatch_codes") && PlainKey("settlement_confirmation_id")
  {
  }

  /** The event of a row that does not match. */
  lemma ExceptionPrints(confirmationId: string, codes: seq<Mismatch>)
    ensures AuditText(ExceptionPayload(confirmationId, codes)) ==
            "{" + Fields([ ("mismatch_codes", AuditText(CodesJson(codes))),
                           ("settlement_confirmation_id", Quote(confirmationId)) ]) + "}"
  {
    ExceptionKeys();
    ExceptionKeysPlain();
    var ms := ExceptionPayload(confirmationId, codes).members;
    var sorted := [ms[1], ms[0]];
    ScalarsPrint(ms[0].value);
    hide ComesBefore, PlainKey, AuditText, Fields, Quote, Numeral, NullableText, Nullable, Strings, SortBy, ItemsJson, RuleResults, CodesJson, RowsJson, RowJson, ManifestComplete, CovenantName;
    ObjectFields(ms, sorted, [ ("mismatch_codes", AuditText(CodesJson(codes))),
                           ("settlement_confirmation_id", Quote(confirmationId)) ]);
  }

  lemma ImportedKeys()
    ensures ComesBefore("rows", "second_entry_subject")
  {
    Differ("rows", "second_entry_subject", 0);
  }

  lemma ImportedKeysPlain()
    ensures PlainKey("rows") && PlainKey("second_entry_subject")
  {
  }

  /** The event of an import. */
  lemma ImportedPrints(rows: seq<CsvRow>, confirmer: string)
    ensures AuditText(ImportedPayload(rows, confirmer)) ==
            "{" + Fields([ ("rows", AuditText(Arr(RowsJson(rows)))),
                           ("second_entry_subject", Quote(confirmer)) ]) + "}"
  {
    ImportedKeys();
    ImportedKeysPlain();
    var ms := ImportedPayload(rows, confirmer).members;
    var sorted := [ms[0], ms[1]];
    ScalarsPrint(ms[1].value);
    hide ComesBefore, PlainKey, AuditText, Fields, Quote, Numeral, NullableText, Nullable, Strings, SortBy, ItemsJson, RuleResults, CodesJson, RowsJson, RowJson, ManifestComplete, CovenantName;
    ObjectFields(ms, sorted, [ ("rows", AuditText(Arr(RowsJson(rows)))),
                           ("second_entry_subject", Quote(confirmer)) ]);
  }

  lemma RowKeys()
    ensures ComesBefore("amount_minor", "currency")
    ensures ComesBefore("currency", "external_partner_id")
  {
    Differ("amount_minor", "currency", 0);
    Differ("currency", "external_partner_id", 0);
  }

  lemma RowKeysMore()
    ensures ComesBefore("external_partner_id", "payee_account_ref")
    ensures ComesBefore("payee_account_ref", "settlement_date")
  {
    Differ("external_partner_id", "payee_account_ref", 0);
    Differ("payee_account_ref", "settlement_date", 0);
  }

  lemma RowKeysLast()
    ensures ComesBefore("settlement_date", "settlement_reference")
  {
    Differ("settlement_date", "settlement_reference", 11);
  }

  lemma RowKeysPlain()
    ensures PlainKey("amount_minor") && PlainKey("currency") && PlainKey("external_partner_id")
  {
  }

  lemma RowKeysPlainMore()
    ensures PlainKey("payee_account_ref") && PlainKey("settlement_date") && PlainKey("settlement_reference")
  {
  }

  function RowFields(row: CsvRow): (fs: seq<(string, string)>)
    ensures |fs| == 6
  {
    [ ("amount_minor", Quote(row.amountMinor)),
      ("currency", Quote(row.currency)),
      ("external_partner_id", Quote(row.externalPartnerId)),
      ("payee_account_ref", Quote(row.payeeAccountRef)),
      ("settlement_date", Quote(row.settlementDate)),
      ("settlement_reference", Quote(row.settlementReference)) ]
  }

  function RowSorted(row: CsvRow): (ms: seq<Member>)
    ensures |ms| == 6
  {
    var ms := RowJson(row).members;
    [ms[2], ms[3], ms[0], ms[4], ms[5], ms[1]]
  }

  lemma RowAscends(row: CsvRow)
    ensures forall i :: 0 <= i < 5 ==> ComesBefore(RowSorted(row)[i].key, RowSorted(row)[i + 1].key)
  {
    RowKeys();
    RowKeysMore();
    RowKeysLast();
    hide ComesBefore, PlainKey, AuditText, Fields, Quote;
  }

  lemma RowPlain(row: CsvRow)
    ensures forall i :: 0 <= i < 6 ==> PlainKey(RowSorted(row)[i].key)
  {
    RowKeysPlain();
    RowKeysPlainMore();
    hide ComesBefore, PlainKey, AuditText, Fields, Quote;
  }

  lemma RowValues(row: CsvRow)
    ensures forall i :: 0 <= i < 6 ==> RowFields(row)[i] == (RowSorted(row)[i].key, AuditText(RowSorted(row)[i].value))
  {
    var ms := RowJson(row).members;
    ScalarsPrint(ms[0].value);
    ScalarsPrint(ms[1].value);
    ScalarsPrint(ms[2].value);
    ScalarsPrint(ms[3].value);
    ScalarsPrint(ms[4].value);
    ScalarsPrint(ms[5].value);
    hide ComesBefore, PlainKey, AuditText, Fields, Quote;
  }

  /** A row, as it is hashed. */
  lemma RowPrints(row: CsvRow)
    ensures AuditText(RowJson(row)) == "{" + Fields(RowFields(row)) + "}"
  {
    RowAscends(row);
    RowPlain(row);
    RowValues(row);
    hide ComesBefore, PlainKey, AuditText, Fields, Quote, RowFields;
    ObjectFields(RowJson(row).members, RowSorted(row), RowFields(row));
  }

  lemma BindingKeys()
    ensures ComesBefore("amount_approved_minor", "budget_line_ids")
    ensures ComesBefore("budget_line_ids", "currency")
  {
    Differ("amount_approved_minor", "budget_line_ids", 0);
    Differ("budget_line_ids", "currency", 0);
  }

  lemma BindingKeysMore()
    ensures ComesBefore("currency", "evidence_manifest_hash")
    ensures ComesBefore("evidence_manifest_hash", "payee_bank_account_id")
  {
    Differ("currency", "evidence_manifest_hash", 0);
    Differ("evidence_manifest_hash", "payee_bank_account_id", 0);
  }

  lemma BindingKeysLast()
    ensures ComesBefore("payee_bank_account_id", "policy_version")
  {
    Differ("payee_bank_account_id", "policy_version", 1);
  }

  lemma BindingKeysPlain()
    ensures PlainKey("amount_approved_minor") && PlainKey("budget_line_ids") && PlainKey("currency")
  {
  }

  lemma BindingKeysPlainMore()
    ensures PlainKey("evidence_manifest_hash") && PlainKey("payee_bank_account_id") && PlainKey("policy_version")
  {
  }

  function BindingFields(d: DrawRequest, amount: nat): (fs: seq<(string, string)>)
    ensures |fs| == 6
  {
    [ ("amount_approved_minor", Quote(Numeral(amount))),
      ("budget_line_ids", AuditText(Arr(Strings(SortBy(d.budgetLineIds, Itself))))),
      ("currency", Quote(d.currency)),
      ("evidence_manifest_hash", NullableText(d.lockedManifestHash)),
      ("payee_bank_account_id", Quote(d.payeeBankAccountId)),
      ("policy_version", NullableText(d.lockedPolicyVersion)) ]
  }

  function BindingSorted(d: DrawRequest, amount: nat): (ms: seq<Member>)
    ensures |ms| == 6
  {
    var ms := BindingMembers(d, amount);
    [ms[0], ms[5], ms[1], ms[3], ms[2], ms[4]]
  }

  lemma BindingAscends(d: DrawRequest, amount: nat)
    ensures forall i :: 0 <= i < 5 ==> ComesBefore(BindingSorted(d, amount)[i].key, BindingSorted(d, amount)[i + 1].key)
  {
    BindingKeys();
    BindingKeysMore();
    BindingKeysLast();
    hide ComesBefore, PlainKey, AuditText, Fields, Quote, Numeral, NullableText, Nullable, Strings, SortBy, ItemsJson, RuleResults, CodesJson, RowsJson, RowJson, ManifestComplete, CovenantName;
  }

  lemma BindingPlain(d: DrawRequest, amount: nat)
    ensures forall i :: 0 <= i < 6 ==> PlainKey(BindingSorted(d, amount)[i].key)
  {
    BindingKeysPlain();
    BindingKeysPlainMore();
    hide ComesBefore, PlainKey, AuditText, Fields, Quote, Numeral, NullableText, Nullable, Strings, SortBy, ItemsJson, RuleResults, CodesJson, RowsJson, RowJson, ManifestComplete, CovenantName;
  }

  lemma BindingValues(d: DrawRequest, amount: nat)
    ensures forall i :: 0 <= i < 6 ==> BindingFields(d, amount)[i] == (BindingSorted(d, amount)[i].key, AuditText(BindingSorted(d, amount)[i].value))
  {
    var ms := BindingMembers(d, amount);
    ScalarsPrint(ms[0].value);
    ScalarsPrint(ms[1].value);
    ScalarsPrint(ms[2].value);
    NullablePrints(d.lockedManifestHash);
    NullablePrints(d.lockedPolicyVersion);
    hide ComesBefore, PlainKey, AuditText, Fields, Quote, Numeral, NullableText, Nullable, Strings, SortBy, ItemsJson, RuleResults, CodesJson, RowsJson, RowJson, ManifestComplete, CovenantName;
  }

  /** What an approval's hash is taken of. */
  lemma BindingPrints(d: DrawRequest, amount: nat)
    ensures AuditText(Obj(BindingMembers(d, amount))) == "{" + Fields(BindingFields(d, amount)) + "}"
  {
    BindingAscends(d, amount);
    BindingPlain(d, amount);
    BindingValues(d, amount);
    hide ComesBefore, PlainKey, AuditText, Fields, Quote, Numeral, NullableText, Nullable, Strings, SortBy, ItemsJson, RuleResults, CodesJson, RowsJson, RowJson, ManifestComplete, CovenantName, BindingFields;
    ObjectFields(BindingMembers(d, amount), BindingSorted(d, amount), BindingFields(d, amount));
  }
}
