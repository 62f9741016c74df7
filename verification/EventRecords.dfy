/** What one append puts on record, field by field, and the text its hash is taken of. */
module EventRecords {
  import opened Sums
  import opened Ordering
  import opened Decimal
  import opened CanonicalJson
  import opened CanonicalText
  import opened Ledger

  // ---------------------------------------------------------------------------
  // The stored row
  // ---------------------------------------------------------------------------

  lemma {:induction false} Repeated(c: char, n: nat)
    ensures |Repeat(c, n)| == n && forall i :: 0 <= i < n ==> Repeat(c, n)[i] == c
  {
    if n > 0 { Repeated(c, n - 1); }
  }

  /** A text, or what stands for it where it is empty. */
  predicate TextOrDefault(v: string, given: string, default: string) {
    v == if given != "" then given else default
  }

  /** The envelope carries the caller's fields, the defaults of those left empty, and the application's id and time. */
  ghost predicate Carries(e: Envelope, input: AppendInput, stamp: Stamp) {
    && e.eventId == stamp.eventId && e.occurredAt == stamp.occurredAt && e.eventVersion == 1
    && e.eventType == input.eventType && e.tenantId == input.tenantId
    && e.actorId == input.actorId && e.actorRole == input.actorRole
    && TextOrDefault(e.actorType, input.actorType,
                     if input.actorRole == "system" then "SYSTEM"
                     else if input.actorRole in ["EscrowPartner", "partner"] then "PARTNER"
                     else if input.actorRole == "SuperAgent" then "SUPER_AGENT" else "USER")
    && TextOrDefault(e.aggregateType, input.aggregateType, "DRAW_REQUEST") && e.aggregateId == input.aggregateId
    && e.stateBefore == input.stateBefore && e.stateAfter == input.stateAfter
    && e.policyVersion == input.policyVersion && e.evidenceManifestHash == input.evidenceManifestHash
    && e.idempotencyKey == input.idempotencyKey
  }

  /** The caller's payload, else its metadata, else an empty object. */
  ghost predicate IsPayload(v: Json, input: AppendInput) {
    v == match input.payload
         case Some(p) => p
         case None => (match input.metadata case Some(m) => m case None => Obj([]))
  }

  lemma CarriesInput(sha: string -> string, chain: Chain, input: AppendInput, stored: Json, stamp: Stamp)
    ensures Carries(EnvelopeOf(sha, chain, input, stored, stamp), input, stamp)
  {
    assert input.actorRole in ["EscrowPartner", "partner"] <==> input.actorRole == "EscrowPartner" || input.actorRole == "partner";
  }

  lemma PayloadIs(input: AppendInput)
    ensures IsPayload(PayloadOf(input), input)
  {
  }

  /** Every append that adds a row adds one that carries its input, comes next in the chain and hashes what it holds. */
  lemma AppendedRowIs(sha: string -> string, chain: Chain, tenant: string, input: AppendInput, stamp: Stamp, idFree: bool, payload: Json)
    requires Sound(sha, chain) && IsPayload(payload, input)
    requires var r := AppendTo(sha, chain, tenant, input, stamp, idFree);
             r.Stored? && r.chain != chain
    ensures var r := AppendTo(sha, chain, tenant, input, stamp, idFree);
            var row := r.row;
            && r.chain.rows == chain.rows + [row] && r.chain.head == Some(Head(|chain.rows| + 1, row.eventHash))
            && row.chainSeq == |chain.rows| + 1 && row.recordedAt == stamp.recordedAt
            && Carries(row.envelope, input, stamp)
            && row.envelope.previousEventHash == (if chain.rows == [] then GENESIS else chain.rows[|chain.rows| - 1].eventHash)
            && Parse(AuditText(payload)) == Some(row.payload) && row.envelope.payloadHash == sha(AuditText(row.payload))
            && row.eventHash == sha(AuditText(Obj(EnvelopeMembers(row.envelope))))
            && TextOrDefault(row.correlationId, input.correlationId, if input.aggregateId != "" then input.aggregateId else stamp.eventId)
    ensures |GENESIS| == 64 && forall i :: 0 <= i < 64 ==> GENESIS[i] == '0'
  {
    Repeated('0', 64);
    PayloadIs(input);
    hide AuditText, Parse, EnvelopeMembers, Linked, Unique, Carries, PayloadOf;
    var stored := Parse(AuditText(PayloadOf(input))).value;
    CarriesInput(sha, chain, input, stored, stamp);
  }

  /** Which appends are refused or replayed, in the order the checks come. */
  lemma AppendOutcome(sha: string -> string, chain: Chain, tenant: string, input: AppendInput, stamp: Stamp, idFree: bool, payload: Json, stored: Json)
    requires IsPayload(payload, input) && Parse(AuditText(payload)) == Some(stored)
    ensures var r := AppendTo(sha, chain, tenant, input, stamp, idFree);
            if input.tenantId != tenant then r == Refused(TenantMismatch)
            else if input.payloadHash != "" && input.payloadHash != sha(AuditText(stored)) then r == Refused(PayloadHashRefused)
            else if input.idempotencyKey != "" && Repeats(chain.rows, input) then r.Stored? && r.chain == chain && IsFirst(chain.rows, input, r.row)
            else r == Refused(UniqueViolation) || (r.Stored? && r.chain != chain)
  {
    PayloadIs(input);
    FirstIsFound(chain.rows, input);
    hide AuditText, Parse, Unique, RowOf, PayloadOf, IsFirst;
    var r := AppendTo(sha, chain, tenant, input, stamp, idFree);
    if r.Stored? && r.chain.rows == chain.rows + [r.row] { assert |r.chain.rows| != |chain.rows|; }
  }

  predicate SameKeyAndType(row: Row, input: AppendInput) {
    row.envelope.idempotencyKey == input.idempotencyKey && row.envelope.eventType == input.eventType
  }

  /** An event of this type under this key is on record. */
  ghost predicate Repeats(rows: seq<Row>, input: AppendInput) {
    exists i :: 0 <= i < |rows| && SameKeyAndType(rows[i], input)
  }

  /** `row` is the first of them. */
  ghost predicate IsFirst(rows: seq<Row>, input: AppendInput, row: Row) {
    exists i :: 0 <= i < |rows| && rows[i] == row && SameKeyAndType(rows[i], input) && forall j :: 0 <= j < i ==> !SameKeyAndType(rows[j], input)
  }

  lemma RepeatsShifts(rows: seq<Row>, input: AppendInput)
    requires rows != [] && !SameKeyAndType(rows[0], input)
    ensures Repeats(rows, input) <==> Repeats(rows[1..], input)
  {
    hide SameKeyAndType;
    if Repeats(rows, input) {
      var i :| 0 <= i < |rows| && SameKeyAndType(rows[i], input);
      assert rows[1..][i - 1] == rows[i];
    }
  }

  lemma FirstShifts(rows: seq<Row>, input: AppendInput, row: Row)
    requires rows != [] && !SameKeyAndType(rows[0], input) && IsFirst(rows[1..], input, row)
    ensures IsFirst(rows, input, row)
  {
    hide SameKeyAndType;
    var tail := rows[1..];
    var i :| 0 <= i < |tail| && tail[i] == row && SameKeyAndType(tail[i], input) && forall j :: 0 <= j < i ==> !SameKeyAndType(tail[j], input);
    assert rows[i + 1] == row && forall j :: 0 < j < i + 1 ==> rows[j] == tail[j - 1];
  }

  lemma {:induction false} FirstIsFound(rows: seq<Row>, input: AppendInput)
    ensures var r := FindKeyed(rows, input.idempotencyKey, input.eventType);
            (r.Some? <==> Repeats(rows, input)) && (r.Some? ==> IsFirst(rows, input, r.value))
  {
    if rows != [] {
      if SameKeyAndType(rows[0], input) {
        assert IsFirst(rows, input, rows[0]);
      } else {
        hide Repeats, IsFirst;
        FirstIsFound(rows[1..], input);
        RepeatsShifts(rows, input);
        var r := FindKeyed(rows[1..], input.idempotencyKey, input.eventType);
        if r.Some? { FirstShifts(rows, input, r.value); }
      }
    }
  }

  // ---------------------------------------------------------------------------
  // Re-verification
  // ---------------------------------------------------------------------------

  predicate NumberedRight(rows: seq<Row>, i: nat)
    requires i < |rows|
  {
    rows[i].chainSeq == i + 1
  }

  /** The event names the hash of the one before it, the first one sixty-four zeros. */
  predicate LinkedRight(rows: seq<Row>, i: nat)
    requires i < |rows|
  {
    if i > 0 then rows[i].envelope.previousEventHash == rows[i - 1].eventHash
    else |rows[i].envelope.previousEventHash| == 64 && forall k :: 0 <= k < 64 ==> rows[i].envelope.previousEventHash[k] == '0'
  }

  /** Each fault names the first thing wrong with an event: its number, its link, its payload's hash, its own hash. */
  lemma FaultsTell(sha: string -> string, rows: seq<Row>, i: nat)
    requires i < |rows|
    ensures var fault, e := RowFault(sha, rows, i), rows[i].envelope;
            var payloadRight, hashRight := sha(AuditText(rows[i].payload)) == e.payloadHash, sha("{" + Fields(EnvelopeFields(e)) + "}") == rows[i].eventHash;
            && (fault == Some(SequenceGap) <==> !NumberedRight(rows, i))
            && (fault == Some(LinkBroken) <==> NumberedRight(rows, i) && !LinkedRight(rows, i))
            && (fault == Some(PayloadHashMismatch) <==> NumberedRight(rows, i) && LinkedRight(rows, i) && !payloadRight)
            && (fault == Some(EventHashMismatch) <==> NumberedRight(rows, i) && LinkedRight(rows, i) && payloadRight && !hashRight)
            && (fault == None <==> NumberedRight(rows, i) && LinkedRight(rows, i) && payloadRight && hashRight)
  {
    EnvelopePrints(rows[i].envelope);
    LinkedMeans(rows, i);
    hide AuditText, Fields, EnvelopeFields, EnvelopeMembers, HashBefore, LinkedRight;
  }

  lemma LinkedMeans(rows: seq<Row>, i: nat)
    requires i < |rows|
    ensures rows[i].envelope.previousEventHash == HashBefore(rows, i) <==> LinkedRight(rows, i)
  {
    if i == 0 { GenesisIs(rows[i].envelope.previousEventHash); }
    hide GENESIS;
  }

  lemma GenesisIs(given: string)
    ensures given == GENESIS <==> |given| == 64 && forall k :: 0 <= k < 64 ==> given[k] == '0'
  {
    Repeated('0', 64);
    hide Repeat;
  }

  // ---------------------------------------------------------------------------
  // The hashed text
  // ---------------------------------------------------------------------------

  lemma Differ(a: string, b: string, k: nat)
    requires k < |a| && k < |b| && a[..k] == b[..k] && a[k] < b[k]
    ensures ComesBefore(a, b)
  {
    assert SplitsAt(a, b, k);
  }

  lemma FirstKeysAscend()
    ensures ComesBefore("actor_id", "actor_role")
    ensures ComesBefore("actor_role", "actor_type")
    ensures ComesBefore("actor_type", "aggregate_id")
    ensures ComesBefore("aggregate_id", "aggregate_type")
  {
    Differ("actor_id", "actor_role", 6);
    Differ("actor_role", "actor_type", 6);
    Differ("actor_type", "aggregate_id", 1);
    Differ("aggregate_id", "aggregate_type", 10);
  }

  lemma SecondKeysAscend()
    ensures ComesBefore("aggregate_type", "event_id")
    ensures ComesBefore("event_id", "event_type")
    ensures ComesBefore("event_type", "event_version")
    ensures ComesBefore("event_version", "evidence_manifest_hash")
  {
    Differ("aggregate_type", "event_id", 0);
    Differ("event_id", "event_type", 6);
    Differ("event_type", "event_version", 6);
    Differ("event_version", "evidence_manifest_hash", 2);
  }

  lemma ThirdKeysAscend()
    ensures ComesBefore("evidence_manifest_hash", "idempotency_key")
    ensures ComesBefore("idempotency_key", "occurred_at")
    ensures ComesBefore("occurred_at", "payload_hash")
    ensures ComesBefore("payload_hash", "policy_version")
  {
    Differ("evidence_manifest_hash", "idempotency_key", 0);
    Differ("idempotency_key", "occurred_at", 0);
    Differ("occurred_at", "payload_hash", 0);
    Differ("payload_hash", "policy_version", 1);
  }

  lemma FourthKeysAscend()
    ensures ComesBefore("policy_version", "previous_event_hash")
    ensures ComesBefore("previous_event_hash", "state_after")
    ensures ComesBefore("state_after", "state_before")
    ensures ComesBefore("state_before", "tenant_id")
  {
    Differ("policy_version", "previous_event_hash", 1);
    Differ("previous_event_hash", "state_after", 0);
    Differ("state_after", "state_before", 6);
    Differ("state_before", "tenant_id", 0);
  }

  lemma FirstKeysPlain()
    ensures PlainKey("actor_id") && PlainKey("actor_role") && PlainKey("actor_type") && PlainKey("aggregate_id")
  {
  }

  lemma SecondKeysPlain()
    ensures PlainKey("aggregate_type") && PlainKey("event_id") && PlainKey("event_type") && PlainKey("event_version")
  {
  }

  lemma ThirdKeysPlain()
    ensures PlainKey("evidence_manifest_hash") && PlainKey("idempotency_key") && PlainKey("occurred_at") && PlainKey("payload_hash")
  {
  }

  lemma FourthKeysPlain()
    ensures PlainKey("policy_version") && PlainKey("previous_event_hash") && PlainKey("state_after") && PlainKey("state_before") && PlainKey("tenant_id")
  {
  }

  function NullableText(v: Option<string>): string {
    match v
    case None => "null"
    case Some(t) => Quote(t)
  }

  /** The fields of an event's hashed text, in key order. */
  function EnvelopeFields(e: Envelope): (fs: seq<(string, string)>)
    ensures |fs| == 17
  {
    [ ("actor_id", Quote(e.actorId)),
      ("actor_role", Quote(e.actorRole)),
      ("actor_type", Quote(e.actorType)),
      ("aggregate_id", Quote(e.aggregateId)),
      ("aggregate_type", Quote(e.aggregateType)),
      ("event_id", Quote(e.eventId)),
      ("event_type", Quote(e.eventType)),
      ("event_version", Numeral(e.eventVersion)),
      ("evidence_manifest_hash", Quote(e.evidenceManifestHash)),
      ("idempotency_key", Quote(e.idempotencyKey)),
      ("occurred_at", Quote(e.occurredAt)),
      ("payload_hash", Quote(e.payloadHash)),
      ("policy_version", Quote(e.policyVersion)),
      ("previous_event_hash", Quote(e.previousEventHash)),
      ("state_after", NullableText(e.stateAfter)),
      ("state_before", NullableText(e.stateBefore)),
      ("tenant_id", Quote(e.tenantId)) ]
  }

  /** The members of an envelope in key order. */
  function SortedMembers(e: Envelope): (ms: seq<Member>)
    ensures |ms| == 17
  {
    var ms := EnvelopeMembers(e);
    [ms[6], ms[7], ms[5], ms[9], ms[8], ms[0], ms[1], ms[2], ms[13], ms[16], ms[3], ms[12], ms[14], ms[15], ms[11], ms[10], ms[4]]
  }

  lemma SortedAreMembers(e: Envelope)
    ensures forall i :: 0 <= i < 17 ==> SortedMembers(e)[i] in EnvelopeMembers(e)
  {
    hide EnvelopeMembers;
  }

  lemma SortedAscend(e: Envelope)
    ensures forall i :: 0 <= i < 16 ==> ComesBefore(SortedMembers(e)[i].key, SortedMembers(e)[i + 1].key)
  {
    FirstKeysAscend();
    SecondKeysAscend();
    ThirdKeysAscend();
    FourthKeysAscend();
    hide ComesBefore, Numeral;
  }

  lemma SortedPlain(e: Envelope)
    ensures forall i :: 0 <= i < 17 ==> PlainKey(SortedMembers(e)[i].key)
  {
    FirstKeysPlain();
    SecondKeysPlain();
    ThirdKeysPlain();
    FourthKeysPlain();
    hide PlainKey, Numeral;
  }

  /** How a text, a number or nothing prints. */
  function ScalarText(v: Json): string {
    match v
    case Str(t) => Quote(t)
    case Num(t) => t
    case _ => "null"
  }

  lemma ScalarPrints(v: Json)
    requires v.Str? || v.Num? || v.Null?
    ensures AuditText(v) == ScalarText(v)
  {
    ScalarsPrint(v);
  }

  lemma NullablePrints(v: Option<string>)
    ensures AuditText(Nullable(v)) == NullableText(v)
  {
    ScalarsPrint(Nullable(v));
  }

  lemma SortedScalars(e: Envelope)
    ensures forall i :: 0 <= i < 17 && i != 14 && i != 15 ==> EnvelopeFields(e)[i] == (SortedMembers(e)[i].key, ScalarText(SortedMembers(e)[i].value))
    ensures forall i :: 0 <= i < 17 && i != 14 && i != 15 ==> SortedMembers(e)[i].value.Str? || SortedMembers(e)[i].value.Num?
    ensures SortedMembers(e)[14].value == Nullable(e.stateAfter) && SortedMembers(e)[15].value == Nullable(e.stateBefore)
    ensures EnvelopeFields(e)[14] == (SortedMembers(e)[14].key, NullableText(e.stateAfter))
    ensures EnvelopeFields(e)[15] == (SortedMembers(e)[15].key, NullableText(e.stateBefore))
  {
    hide Quote, Numeral, NullableText, Nullable;
  }

  lemma SortedPrint(e: Envelope, i: nat)
    requires i < 17
    ensures EnvelopeFields(e)[i] == (SortedMembers(e)[i].key, AuditText(SortedMembers(e)[i].value))
  {
    SortedScalars(e);
    hide AuditText, EnvelopeFields, SortedMembers, NullableText, Nullable, ScalarText;
    if i == 14 {
      NullablePrints(e.stateAfter);
    } else if i == 15 {
      NullablePrints(e.stateBefore);
    } else {
      ScalarPrints(SortedMembers(e)[i].value);
    }
  }

  /** The event hash is taken of the envelope's fields in key order, each once, quoted but for the version and null. */
  lemma EnvelopePrints(e: Envelope)
    ensures AuditText(Obj(EnvelopeMembers(e))) == "{" + Fields(EnvelopeFields(e)) + "}"
  {
    SortedAreMembers(e);
    SortedAscend(e);
    SortedPlain(e);
    forall i | 0 <= i < 17 ensures EnvelopeFields(e)[i] == (SortedMembers(e)[i].key, AuditText(SortedMembers(e)[i].value)) {
      SortedPrint(e, i);
    }
    hide ComesBefore, PlainKey, AuditText, Fields, EnvelopeMembers, EnvelopeFields, SortedMembers;
    ObjectFields(EnvelopeMembers(e), SortedMembers(e), EnvelopeFields(e));
  }
}
