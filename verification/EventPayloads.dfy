/** The payloads the workflow logs are JSON values with distinct keys, so the ledger takes them. */
module EventPayloads {
  import opened Ordering
  import opened Decimal
  import opened CanonicalJson
  import opened Ledger
  import opened ConfirmationCsv
  import opened Workflow

  lemma ObjectValid(ms: seq<Member>)
    requires DistinctKeys(ms, MemberKey) && forall i :: 0 <= i < |ms| ==> Valid(ms[i].value)
    ensures Valid(Obj(ms))
  {
    MembersValid(ms);
  }

  lemma {:induction false} ItemsValid(items: seq<Json>)
    requires forall i :: 0 <= i < |items| ==> Valid(items[i])
    ensures Valid(Arr(items))
  {
    if items != [] {
      assert forall i :: 0 <= i < |items[1..]| ==> items[1..][i] == items[i + 1];
      ItemsValid(items[1..]);
    }
  }

  lemma CreatedPayloadValid(input: DraftInput, amount: nat)
    ensures Valid(CreatedPayload(input, amount))
  {
    hide Numeral;
    var ms := CreatedPayload(input, amount).members;
    assert |ms[0].key| == 7 && |ms[1].key| == 14 && |ms[2].key| == 22 && |ms[3].key| == 8 && |ms[4].key| == 21;
    ObjectValid(ms);
  }

  lemma UploadedPayloadValid(d: Document)
    ensures Valid(UploadedPayload(d))
  {
    NumeralIsNumber(d.version);
    hide Numeral;
    var ms := UploadedPayload(d).members;
    assert |ms[0].key| == 11 && |ms[1].key| == 13 && |ms[2].key| == 12 && |ms[3].key| == 7 && |ms[4].key| == 13;
    assert ms[1].key[0] == 'd' && ms[4].key[0] == 's';
    ObjectValid(ms);
  }

  lemma VerifiedPayloadValid(documentId: string, contentHash: string)
    ensures Valid(VerifiedPayload(documentId, contentHash))
  {
    var ms := VerifiedPayload(documentId, contentHash).members;
    assert |ms[0].key| == 11 && |ms[1].key| == 12;
    ObjectValid(ms);
  }

  lemma ItemValid(d: Document)
    ensures Valid(ItemJson(d))
  {
    NumeralIsNumber(d.version);
    hide Numeral;
    var ms := ItemJson(d).members;
    assert |ms[0].key| == 11 && |ms[1].key| == 13 && |ms[2].key| == 12 && |ms[3].key| == 7;
    ObjectValid(ms);
  }

  lemma {:induction false} DocumentItemsValid(documents: seq<Document>)
    ensures forall i :: 0 <= i < |documents| ==> Valid(ItemsJson(documents)[i])
  {
    hide Valid, ItemJson;
    if documents != [] {
      ItemValid(documents[0]);
      DocumentItemsValid(documents[1..]);
    }
  }

  lemma SubmittedPayloadValid(hash: string, policyVersion: string, documents: seq<Document>)
    ensures Valid(SubmittedPayload(hash, policyVersion, documents))
  {
    DocumentItemsValid(documents);
    ItemsValid(ItemsJson(documents));
    hide ItemsJson;
    var ms := SubmittedPayload(hash, policyVersion, documents).members;
    assert |ms[0].key| == 13 && |ms[1].key| == 14 && |ms[2].key| == 9;
    ObjectValid(ms);
  }

  lemma RulePassedValid(subject: string)
    ensures Valid(Obj([Member("rule", Str("REQUIRED_EVIDENCE")), Member("subject", Str(subject)), Member("result", Str("PASS"))]))
  {
    var ms := [Member("rule", Str("REQUIRED_EVIDENCE")), Member("subject", Str(subject)), Member("result", Str("PASS"))];
    assert |ms[0].key| == 4 && |ms[1].key| == 7 && |ms[2].key| == 6;
    ObjectValid(ms);
  }

  lemma RuleFailedValid(subject: string)
    ensures Valid(Obj([ Member("rule", Str("REQUIRED_EVIDENCE")), Member("subject", Str(subject)), Member("result", Str("FAIL")),
                        Member("reason_code", Str("EVIDENCE_MISSING")),
                        Member("reason_text", Str(subject + " is not in the frozen manifest")) ]))
  {
    var ms := [ Member("rule", Str("REQUIRED_EVIDENCE")), Member("subject", Str(subject)), Member("result", Str("FAIL")),
                Member("reason_code", Str("EVIDENCE_MISSING")),
                Member("reason_text", Str(subject + " is not in the frozen manifest")) ];
    assert |ms[0].key| == 4 && |ms[1].key| == 7 && |ms[2].key| == 6 && |ms[3].key| == 11 && |ms[4].key| == 11;
    assert ms[3].key[7] == 'c' && ms[4].key[7] == 't';
    ObjectValid(ms);
  }

  lemma {:induction false} RuleResultsValid(s: State, drawId: string, required: seq<string>)
    ensures forall i :: 0 <= i < |required| ==> Valid(RuleResults(s, drawId, required)[i])
  {
    hide Valid, InManifest;
    if required != [] {
      RulePassedValid(required[0]);
      RuleFailedValid(required[0]);
      RuleResultsValid(s, drawId, required[1..]);
    }
  }

  lemma EvaluatedPayloadValid(s: State, drawId: string, id: string, pack: PolicyPack)
    ensures Valid(EvaluatedPayload(s, drawId, id, pack))
  {
    RuleResultsValid(s, drawId, pack.requiredEvidence);
    ItemsValid(RuleResults(s, drawId, pack.requiredEvidence));
    hide RuleResults, ManifestComplete;
    var ms := EvaluatedPayload(s, drawId, id, pack).members;
    assert |ms[0].key| == 20 && |ms[1].key| == 6 && |ms[2].key| == 12;
    ObjectValid(ms);
  }

  lemma ControlsValid(c: Controls)
    ensures Valid(DecisionPayload("", 0, c).members[2].value)
  {
    hide CovenantName, Numeral;
    var ms := DecisionPayload("", 0, c).members[2].value.members;
    SevenLengths(ms);
  }

  lemma SevenLengths(ms: seq<Member>)
    requires |ms| == 7 && forall i :: 0 <= i < 7 ==> Valid(ms[i].value)
    requires |ms[0].key| == 20 && |ms[1].key| == 21 && |ms[2].key| == 16 && |ms[3].key| == 14
    requires |ms[4].key| == 18 && |ms[5].key| == 19 && |ms[6].key| == 26
    ensures Valid(Obj(ms))
  {
    ObjectValid(ms);
  }

  lemma DecisionPayloadValid(bindingHash: string, amount: nat, c: Controls)
    ensures Valid(DecisionPayload(bindingHash, amount, c))
  {
    ControlsValid(c);
    hide CovenantName, Numeral;
    var ms := DecisionPayload(bindingHash, amount, c).members;
    assert |ms[0].key| == 21 && |ms[1].key| == 21 && |ms[2].key| == 8 && ms[0].key[1] == 'p' && ms[1].key[1] == 'm';
    assert ms[2] == DecisionPayload("", 0, c).members[2];
    ObjectValid(ms);
  }

  lemma InstructedPayloadValid(d: DrawRequest, input: InstructInput)
    ensures Valid(InstructedPayload(d, input))
  {
    hide Numeral;
    var ms := InstructedPayload(d, input).members;
    assert |ms[0].key| == 19 && |ms[1].key| == 20 && |ms[2].key| == 12 && |ms[3].key| == 8;
    assert |ms[4].key| == 21 && |ms[5].key| == 21 && ms[4].key[0] == 'p' && ms[5].key[0] == 'a';
    ObjectValid(ms);
  }

  lemma RowValid(row: CsvRow)
    ensures Valid(RowJson(row))
  {
    var ms := RowMembers(row);
    assert |ms[0].key| == 19 && |ms[1].key| == 20 && |ms[2].key| == 12;
    assert |ms[3].key| == 8 && |ms[4].key| == 17 && |ms[5].key| == 15;
    ObjectValid(ms);
  }

  lemma {:induction false} RowsValid(rows: seq<CsvRow>)
    ensures forall i :: 0 <= i < |rows| ==> Valid(RowsJson(rows)[i])
  {
    hide Valid, RowJson;
    if rows != [] {
      RowValid(rows[0]);
      RowsValid(rows[1..]);
    }
  }

  lemma ImportedPayloadValid(rows: seq<CsvRow>, confirmer: string)
    ensures Valid(ImportedPayload(rows, confirmer))
  {
    RowsValid(rows);
    ItemsValid(RowsJson(rows));
    hide RowsJson;
    var ms := ImportedPayload(rows, confirmer).members;
    assert |ms[0].key| == 4 && |ms[1].key| == 20;
    ObjectValid(ms);
  }

  lemma ConfirmedPayloadValid(confirmationId: string, row: CsvRow)
    ensures Valid(ConfirmedPayload(confirmationId, row))
  {
    RowValid(row);
    hide RowJson;
    var ms := ConfirmedPayload(confirmationId, row).members;
    assert |ms[0].key| == 26 && |ms[1].key| == 3;
    ObjectValid(ms);
  }

  lemma ReconciledPayloadValid(confirmationId: string, instructionId: string)
    ensures Valid(ReconciledPayload(confirmationId, instructionId))
  {
    var ms := ReconciledPayload(confirmationId, instructionId).members;
    assert |ms[0].key| == 26 && |ms[1].key| == 25;
    ObjectValid(ms);
  }
}
