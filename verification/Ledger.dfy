/**
 * The Postgres audit ledger: one hash chain of events per tenant, appended to
 * inside transactions and re-verified from its first event.
 */
module Ledger {
  import opened Sums
  import opened Ordering
  import opened Decimal
  import opened CanonicalJson

  /** `previous_event_hash` of the first event of a chain. */
  const GENESIS: string := Repeat('0', 64)

  function Repeat(c: char, n: nat): string {
    if n == 0 then "" else [c] + Repeat(c, n - 1)
  }

  /** What an event hash covers. */
  datatype Envelope = Envelope(
    eventId: string,
    eventType: string,
    eventVersion: nat,
    occurredAt: string,
    tenantId: string,
    actorType: string,
    actorId: string,
    actorRole: string,
    aggregateType: string,
    aggregateId: string,
    stateBefore: Option<string>,
    stateAfter: Option<string>,
    payloadHash: string,
    evidenceManifestHash: string,
    policyVersion: string,
    previousEventHash: string,
    idempotencyKey: string)

  function Nullable(v: Option<string>): Json {
    match v
    case None => Null
    case Some(t) => Str(t)
  }

  function EnvelopeMembers(e: Envelope): (ms: seq<Member>)
    ensures |ms| == 17
  {
    [ Member("event_id", Str(e.eventId)),
      Member("event_type", Str(e.eventType)),
      Member("event_version", Num(Numeral(e.eventVersion))),
      Member("occurred_at", Str(e.occurredAt)),
      Member("tenant_id", Str(e.tenantId)),
      Member("actor_type", Str(e.actorType)),
      Member("actor_id", Str(e.actorId)),
      Member("actor_role", Str(e.actorRole)),
      Member("aggregate_type", Str(e.aggregateType)),
      Member("aggregate_id", Str(e.aggregateId)),
      Member("state_before", Nullable(e.stateBefore)),
      Member("state_after", Nullable(e.stateAfter)),
      Member("payload_hash", Str(e.payloadHash)),
      Member("evidence_manifest_hash", Str(e.evidenceManifestHash)),
      Member("policy_version", Str(e.policyVersion)),
      Member("previous_event_hash", Str(e.previousEventHash)),
      Member("idempotency_key", Str(e.idempotencyKey)) ]
  }

  function EventHash(sha: string -> string, e: Envelope): string {
    sha(AuditText(Obj(EnvelopeMembers(e))))
  }

  function PayloadHash(sha: string -> string, payload: Json): string {
    sha(AuditText(payload))
  }

  /** A stored event. The receipt time and the correlation id are not hashed. */
  datatype Row = Row(
    chainSeq: int,
    envelope: Envelope,
    payload: Json,
    eventHash: string,
    correlationId: string,
    recordedAt: string)

  datatype Head = Head(lastSeq: int, lastHash: string)

  /** One tenant's events in sequence order, and its head row once there is one. */
  datatype Chain = Chain(rows: seq<Row>, head: Option<Head>)

  // ---------------------------------------------------------------------------
  // Re-verification
  // ---------------------------------------------------------------------------

  datatype Fault = SequenceGap | LinkBroken | PayloadHashMismatch | EventHashMismatch | HeadMismatch

  /** The hash the event at position `i` has to follow. */
  function HashBefore(rows: seq<Row>, i: nat): string
    requires i <= |rows|
  {
    if i == 0 then GENESIS else rows[i - 1].eventHash
  }

  /** The first check the event at position `i` fails. */
  function RowFault(sha: string -> string, rows: seq<Row>, i: nat): Option<Fault>
    requires i < |rows|
  {
    var r := rows[i];
    if r.chainSeq != i + 1 then Some(SequenceGap)
    else if r.envelope.previousEventHash != HashBefore(rows, i) then Some(LinkBroken)
    else if PayloadHash(sha, r.payload) != r.envelope.payloadHash then Some(PayloadHashMismatch)
    else if EventHash(sha, r.envelope) != r.eventHash then Some(EventHashMismatch)
    else None
  }

  /** Every event carries the next number, follows its predecessor and hashes as stored. */
  ghost predicate Linked(sha: string -> string, rows: seq<Row>) {
    forall i :: 0 <= i < |rows| ==> RowFault(sha, rows, i) == None
  }

  /** The head row, where the chain has events: an empty chain's head is not looked at. */
  predicate HeadAgrees(chain: Chain) {
    chain.rows != [] ==> chain.head == Some(Head(|chain.rows|, Last(chain.rows).eventHash))
  }

  /** What one read of the chain reports. */
  datatype Verification = Verification(ok: bool, count: nat, brokenAtSeq: Option<int>, reason: Option<Fault>)

  ghost predicate Verifies(sha: string -> string, chain: Chain) {
    Linked(sha, chain.rows) && HeadAgrees(chain)
  }

  // ---------------------------------------------------------------------------
  // Appending
  // ---------------------------------------------------------------------------

  /** A caller's event; an empty string stands for an absent field. */
  datatype AppendInput = AppendInput(
    eventType: string,
    tenantId: string,
    actorId: string,
    actorRole: string,
    actorType: string,
    aggregateType: string,
    aggregateId: string,
    stateBefore: Option<string>,
    stateAfter: Option<string>,
    policyVersion: string,
    evidenceManifestHash: string,
    payload: Option<Json>,
    metadata: Option<Json>,
    payloadHash: string,
    idempotencyKey: string,
    correlationId: string)

  /** What the application and the database add to an event: its id and its times. */
  datatype Stamp = Stamp(eventId: string, occurredAt: string, recordedAt: string)

  datatype Refusal = TenantMismatch | PayloadNotJson | PayloadHashRefused | UniqueViolation

  datatype Appended = Stored(chain: Chain, row: Row) | Refused(why: Refusal)

  function Or(text: string, default: string): string {
    if text == "" then default else text
  }

  function InferActorType(role: string): string {
    if role == "system" then "SYSTEM"
    else if role == "EscrowPartner" || role == "partner" then "PARTNER"
    else if role == "SuperAgent" then "SUPER_AGENT"
    else "USER"
  }

  function PayloadOf(input: AppendInput): Json {
    if input.payload.Some? then input.payload.value
    else if input.metadata.Some? then input.metadata.value
    else Obj([])
  }

  /** The stored event with this idempotency key and type, if any. */
  function FindKeyed(rows: seq<Row>, key: string, eventType: string): (r: Option<Row>)
    ensures r.Some? ==> r.value in rows && r.value.envelope.idempotencyKey == key && r.value.envelope.eventType == eventType
    ensures r.None? ==> forall e :: e in rows ==> e.envelope.idempotencyKey != key || e.envelope.eventType != eventType
  {
    if rows == [] then None
    else if rows[0].envelope.idempotencyKey == key && rows[0].envelope.eventType == eventType then Some(rows[0])
    else FindKeyed(rows[1..], key, eventType)
  }

  /** The head row, as the append's insert leaves it. */
  function HeadOf(chain: Chain): Head {
    if chain.head.Some? then chain.head.value else Head(0, GENESIS)
  }

  function EnvelopeOf(sha: string -> string, chain: Chain, input: AppendInput, stored: Json, stamp: Stamp): Envelope {
    Envelope(
      stamp.eventId, input.eventType, 1, stamp.occurredAt, input.tenantId,
      Or(input.actorType, InferActorType(input.actorRole)), input.actorId, input.actorRole,
      Or(input.aggregateType, "DRAW_REQUEST"), input.aggregateId, input.stateBefore, input.stateAfter,
      PayloadHash(sha, stored), input.evidenceManifestHash, input.policyVersion,
      HeadOf(chain).lastHash, input.idempotencyKey)
  }

  function RowOf(sha: string -> string, chain: Chain, input: AppendInput, stored: Json, stamp: Stamp): Row {
    var e := EnvelopeOf(sha, chain, input, stored, stamp);
    Row(HeadOf(chain).lastSeq + 1, e, stored, EventHash(sha, e),
        Or(input.correlationId, Or(input.aggregateId, stamp.eventId)), stamp.recordedAt)
  }

  /** The table's uniqueness within a tenant: number, predecessor, hash and event id. */
  predicate Unique(rows: seq<Row>, row: Row) {
    forall e :: e in rows ==>
      e.chainSeq != row.chainSeq && e.envelope.previousEventHash != row.envelope.previousEventHash
      && e.eventHash != row.eventHash && e.envelope.eventId != row.envelope.eventId
  }

  /** Appending one event to its tenant's chain; `idFree` says that no other tenant uses the event id. */
  function AppendTo(sha: string -> string, chain: Chain, tenant: string, input: AppendInput, stamp: Stamp, idFree: bool): Appended {
    if input.tenantId != tenant then Refused(TenantMismatch)
    else match Parse(AuditText(PayloadOf(input)))
      case None => Refused(PayloadNotJson)
      case Some(stored) =>
        if input.payloadHash != "" && input.payloadHash != PayloadHash(sha, stored) then Refused(PayloadHashRefused)
        else
          var existing := FindKeyed(chain.rows, input.idempotencyKey, input.eventType);
          if input.idempotencyKey != "" && existing.Some? then Stored(chain, existing.value)
          else
            var row := RowOf(sha, chain, input, stored, stamp);
            if !idFree || !Unique(chain.rows, row) then Refused(UniqueViolation)
            else Stored(Chain(chain.rows + [row], Some(Head(row.chainSeq, row.eventHash))), row)
  }

  /** A chain as appends leave it: linked, and its head, present or not, at its last event. */
  ghost predicate Sound(sha: string -> string, chain: Chain) {
    Linked(sha, chain.rows) && HeadOf(chain) == Head(|chain.rows|, HashBefore(chain.rows, |chain.rows|))
  }

  const EMPTY := Chain([], None)

  lemma EmptyIsSound(sha: string -> string)
    ensures Sound(sha, EMPTY)
  {
  }

  lemma SoundVerifies(sha: string -> string, chain: Chain)
    requires Sound(sha, chain)
    ensures Verifies(sha, chain)
  {
  }

  lemma LinkedPrefix(sha: string -> string, rows: seq<Row>, row: Row)
    requires Linked(sha, rows)
    ensures forall i :: 0 <= i < |rows| ==> RowFault(sha, rows + [row], i) == None
  {
    forall i | 0 <= i < |rows| ensures RowFault(sha, rows + [row], i) == None {
      assert RowFault(sha, rows, i) == None;
      assert HashBefore(rows + [row], i) == HashBefore(rows, i);
    }
  }

  /** An append keeps the chain sound and never rewrites an event. */
  lemma AppendKeepsSound(sha: string -> string, chain: Chain, tenant: string, input: AppendInput, stamp: Stamp, idFree: bool)
    requires Sound(sha, chain)
    ensures var r := AppendTo(sha, chain, tenant, input, stamp, idFree);
            r.Stored? ==>
              Sound(sha, r.chain) && r.row in r.chain.rows &&
              (r.chain == chain || r.chain.rows == chain.rows + [r.row])
  {
    hide AuditText, Parse;
    var r := AppendTo(sha, chain, tenant, input, stamp, idFree);
    if r.Stored? && r.chain != chain {
      LinkedPrefix(sha, chain.rows, r.row);
      assert RowFault(sha, r.chain.rows, |chain.rows|) == None;
    }
  }

  /** No key is recorded twice with the same event type. */
  ghost predicate KeyedOnce(rows: seq<Row>) {
    forall i, j :: 0 <= i < j < |rows| && rows[i].envelope.idempotencyKey != "" ==>
      rows[i].envelope.idempotencyKey != rows[j].envelope.idempotencyKey || rows[i].envelope.eventType != rows[j].envelope.eventType
  }

  lemma {:induction false} FindKeyedLast(rows: seq<Row>, row: Row, key: string, eventType: string)
    requires FindKeyed(rows, key, eventType).None? && row.envelope.idempotencyKey == key && row.envelope.eventType == eventType
    ensures FindKeyed(rows + [row], key, eventType) == Some(row)
  {
    if rows != [] {
      FindKeyedLast(rows[1..], row, key, eventType);
      assert (rows + [row])[1..] == rows[1..] + [row];
    }
  }

  /** Appending again under the same key, whenever and with whatever id, returns the first event and changes nothing. */
  lemma RepeatedAppendReplays(sha: string -> string, chain: Chain, tenant: string, input: AppendInput,
                              stamp: Stamp, idFree: bool, later: Stamp, laterFree: bool)
    requires AppendTo(sha, chain, tenant, input, stamp, idFree).Stored? && input.idempotencyKey != ""
    ensures var first := AppendTo(sha, chain, tenant, input, stamp, idFree);
            AppendTo(sha, first.chain, tenant, input, later, laterFree) == first
  {
    var first := AppendTo(sha, chain, tenant, input, stamp, idFree);
    hide AuditText, Parse, Unique, PayloadHash, EventHash;
    if FindKeyed(chain.rows, input.idempotencyKey, input.eventType).None? {
      FindKeyedLast(chain.rows, first.row, input.idempotencyKey, input.eventType);
    }
  }

  lemma AppendKeepsKeyedOnce(sha: string -> string, chain: Chain, tenant: string, input: AppendInput, stamp: Stamp, idFree: bool)
    requires KeyedOnce(chain.rows) && AppendTo(sha, chain, tenant, input, stamp, idFree).Stored?
    ensures KeyedOnce(AppendTo(sha, chain, tenant, input, stamp, idFree).chain.rows)
  {
    hide AuditText, Parse, Unique, PayloadHash, EventHash;
  }

  // ---------------------------------------------------------------------------
  // Every run of transactions
  // ---------------------------------------------------------------------------

  /** The two ledger tables, split by tenant as row-level security splits them. */
  datatype Tables = Tables(events: map<string, seq<Row>>, heads: map<string, Head>)

  function ChainOf(db: Tables, tenant: string): Chain {
    Chain(if tenant in db.events then db.events[tenant] else [], if tenant in db.heads then Some(db.heads[tenant]) else None)
  }

  function WithChain(db: Tables, tenant: string, chain: Chain): (r: Tables)
    ensures chain.head.Some? ==> ChainOf(r, tenant) == chain
    ensures forall t :: t != tenant ==> ChainOf(r, t) == ChainOf(db, t)
  {
    Tables(db.events[tenant := chain.rows], if chain.head.Some? then db.heads[tenant := chain.head.value] else db.heads)
  }

  /** No other tenant's event carries this id. */
  predicate IdFree(events: map<string, seq<Row>>, tenant: string, eventId: string) {
    forall t :: t in events && t != tenant ==> forall e :: e in events[t] ==> e.envelope.eventId != eventId
  }

  datatype Call = Call(input: AppendInput, stamp: Stamp)

  /** A session's appends, and whether the work around them commits. */
  datatype Transaction = Transaction(tenant: string, calls: seq<Call>, commits: bool)

  /** The chain after the first calls of a transaction, unless one of them is refused. */
  function AfterCalls(sha: string -> string, db: Tables, tenant: string, calls: seq<Call>): Option<Chain> {
    if calls == [] then Some(ChainOf(db, tenant))
    else
      match AfterCalls(sha, db, tenant, Front(calls))
      case None => None
      case Some(chain) =>
        var call := Last(calls);
        match AppendTo(sha, chain, tenant, call.input, call.stamp, IdFree(db.events, tenant, call.stamp.eventId))
        case Stored(next, _) => Some(next)
        case Refused(_) => None
  }

  /** A transaction takes effect as a whole, and only if no append was refused and it commits. */
  function After(sha: string -> string, db: Tables, tx: Transaction): Tables {
    match AfterCalls(sha, db, tx.tenant, tx.calls)
    case None => db
    case Some(chain) => if tx.commits && chain.head.Some? then WithChain(db, tx.tenant, chain) else db
  }

  function AfterAll(sha: string -> string, db: Tables, txs: seq<Transaction>): Tables {
    if txs == [] then db else After(sha, AfterAll(sha, db, Front(txs)), Last(txs))
  }

  lemma {:induction false} CallsKeepSound(sha: string -> string, db: Tables, tenant: string, calls: seq<Call>)
    requires Sound(sha, ChainOf(db, tenant))
    ensures var r := AfterCalls(sha, db, tenant, calls);
            r.Some? ==> Sound(sha, r.value) && ChainOf(db, tenant).rows <= r.value.rows
  {
    hide AppendTo, Sound;
    if calls != [] {
      CallsKeepSound(sha, db, tenant, Front(calls));
      var r := AfterCalls(sha, db, tenant, Front(calls));
      if r.Some? {
        var call := Last(calls);
        AppendKeepsSound(sha, r.value, tenant, call.input, call.stamp, IdFree(db.events, tenant, call.stamp.eventId));
      }
    }
  }

  /** A transaction leaves every tenant's chain sound, extends only its own and rewrites nothing. */
  lemma TransactionKeepsSound(sha: string -> string, db: Tables, tx: Transaction, tenant: string)
    requires Sound(sha, ChainOf(db, tenant))
    ensures var after := After(sha, db, tx);
            Sound(sha, ChainOf(after, tenant)) &&
            ChainOf(db, tenant).rows <= ChainOf(after, tenant).rows &&
            (tenant != tx.tenant ==> ChainOf(after, tenant) == ChainOf(db, tenant))
  {
    if tenant == tx.tenant {
      CallsKeepSound(sha, db, tx.tenant, tx.calls);
    }
    hide AfterCalls, Sound;
  }

  /** After any transactions of any tenants, committed, refused or rolled back, every chain verifies. */
  lemma {:induction false} ChainsAlwaysVerify(sha: string -> string, txs: seq<Transaction>, tenant: string)
    ensures var chain := ChainOf(AfterAll(sha, Tables(map[], map[]), txs), tenant);
            Sound(sha, chain) && Verifies(sha, chain)
  {
    if txs == [] {
      EmptyIsSound(sha);
    } else {
      ChainsAlwaysVerify(sha, Front(txs), tenant);
      TransactionKeepsSound(sha, AfterAll(sha, Tables(map[], map[]), Front(txs)), Last(txs), tenant);
    }
    hide After;
    SoundVerifies(sha, ChainOf(AfterAll(sha, Tables(map[], map[]), txs), tenant));
  }

  // ---------------------------------------------------------------------------
  // Tamper evidence
  // ---------------------------------------------------------------------------

  ghost predicate CollisionFree(sha: string -> string) {
    forall a, b :: sha(a) == sha(b) ==> a == b
  }

  /** The payload column holds JSON values. */
  ghost predicate JsonPayloads(rows: seq<Row>) {
    forall i :: 0 <= i < |rows| ==> Valid(rows[i].payload)
  }

  lemma {:induction false} MembersValid(ms: seq<Member>)
    requires forall i :: 0 <= i < |ms| ==> Valid(ms[i].value)
    ensures ValidMembers(ms)
  {
    if ms != [] {
      assert forall i :: 0 <= i < |ms[1..]| ==> ms[1..][i] == ms[i + 1];
      MembersValid(ms[1..]);
    }
  }

  /** Objects written with the same distinct keys in the same order are equal up to key order only member by member. */
  lemma AlignedSame(u: seq<Member>, v: seq<Member>)
    requires Same(Obj(u), Obj(v)) && DistinctKeys(u, MemberKey)
    requires |u| == |v| && forall i :: 0 <= i < |u| ==> u[i].key == v[i].key
    ensures forall i :: 0 <= i < |u| ==> Same(u[i].value, v[i].value)
  {
    forall i | 0 <= i < |u| ensures Same(u[i].value, v[i].value) {
      assert SomeSame(u[i], v);
      var j :| 0 <= j < |v| && u[i].key == v[j].key && Same(u[i].value, v[j].value);
      SameIndex(u, MemberKey, i, j);
    }
  }

  lemma NumeralIsNumber(n: nat)
    ensures Valid(Num(Numeral(n)))
  {
    NumeralReads(n);
  }

  /** Length, first and seventh character tell the seventeen keys apart. */
  function Fingerprint(key: string): int {
    if |key| > 6 then |key| * 1000 + key[0] as int * 2 + key[6] as int else 0
  }

  const FINGERPRINTS := [8307, 10318, 13320, 11323, 9327, 10310, 8299, 10308, 14291, 12291, 12328, 11327, 12324, 22301, 14319, 19341, 15326]

  lemma EnvelopeFingerprints(e: Envelope)
    ensures forall i :: 0 <= i < 17 ==> Fingerprint(EnvelopeMembers(e)[i].key) == FINGERPRINTS[i]
  {
  }

  lemma FingerprintsDistinct()
    ensures forall i, j :: 0 <= i < j < 17 ==> FINGERPRINTS[i] != FINGERPRINTS[j]
  {
  }

  lemma EnvelopeKeysDistinct(e: Envelope)
    ensures DistinctKeys(EnvelopeMembers(e), MemberKey)
  {
    EnvelopeFingerprints(e);
    FingerprintsDistinct();
    hide EnvelopeMembers, Fingerprint, FINGERPRINTS;
  }

  lemma EnvelopeKeysAgree(a: Envelope, b: Envelope)
    ensures forall i :: 0 <= i < 17 ==> EnvelopeMembers(a)[i].key == EnvelopeMembers(b)[i].key
  {
  }

  lemma EnvelopeIsValid(e: Envelope)
    ensures ValidMembers(EnvelopeMembers(e))
  {
    hide Numeral, ValidMembers;
    NumeralIsNumber(e.eventVersion);
    MembersValid(EnvelopeMembers(e));
  }

  lemma MembersDetermineActor(a: Envelope, b: Envelope)
    requires forall i :: 0 <= i < 17 ==> Same(EnvelopeMembers(a)[i].value, EnvelopeMembers(b)[i].value)
    ensures a.eventId == b.eventId && a.eventType == b.eventType && a.eventVersion == b.eventVersion
    ensures a.occurredAt == b.occurredAt && a.tenantId == b.tenantId && a.actorType == b.actorType
    ensures a.actorId == b.actorId && a.actorRole == b.actorRole
  {
    hide Numeral;
    var u, v := EnvelopeMembers(a), EnvelopeMembers(b);
    assert Same(u[0].value, v[0].value) && Same(u[1].value, v[1].value) && Same(u[2].value, v[2].value) && Same(u[3].value, v[3].value);
    assert Same(u[4].value, v[4].value) && Same(u[5].value, v[5].value) && Same(u[6].value, v[6].value) && Same(u[7].value, v[7].value);
    NumeralInjective(a.eventVersion, b.eventVersion);
  }

  lemma MembersDetermineRest(a: Envelope, b: Envelope)
    requires forall i :: 0 <= i < 17 ==> Same(EnvelopeMembers(a)[i].value, EnvelopeMembers(b)[i].value)
    ensures a.aggregateType == b.aggregateType && a.aggregateId == b.aggregateId && a.stateBefore == b.stateBefore
    ensures a.stateAfter == b.stateAfter && a.payloadHash == b.payloadHash && a.evidenceManifestHash == b.evidenceManifestHash
    ensures a.policyVersion == b.policyVersion && a.previousEventHash == b.previousEventHash && a.idempotencyKey == b.idempotencyKey
  {
    hide Numeral;
    var u, v := EnvelopeMembers(a), EnvelopeMembers(b);
    assert Same(u[8].value, v[8].value) && Same(u[9].value, v[9].value) && Same(u[10].value, v[10].value) && Same(u[11].value, v[11].value);
    assert Same(u[12].value, v[12].value) && Same(u[13].value, v[13].value) && Same(u[14].value, v[14].value) && Same(u[15].value, v[15].value) && Same(u[16].value, v[16].value);
  }

  /** The hashed text determines every field of the envelope. */
  lemma EnvelopeDetermined(a: Envelope, b: Envelope)
    requires AuditText(Obj(EnvelopeMembers(a))) == AuditText(Obj(EnvelopeMembers(b)))
    ensures a == b
  {
    hide EnvelopeMembers, DistinctKeys, AuditText, ValidMembers, Same;
    var u, v := EnvelopeMembers(a), EnvelopeMembers(b);
    EnvelopeKeysAgree(a, b);
    EnvelopeKeysDistinct(a);
    EnvelopeKeysDistinct(b);
    EnvelopeIsValid(a);
    EnvelopeIsValid(b);
    TextIsUnambiguous(Obj(u), Obj(v));
    AlignedSame(u, v);
    MembersDetermineActor(a, b);
    MembersDetermineRest(a, b);
  }

  /** One position of two ledgers whose events there hash alike: the events agree, and so do the hashes before them. */
  lemma SameHashSameEvent(sha: string -> string, a: seq<Row>, b: seq<Row>, i: nat)
    requires CollisionFree(sha) && Linked(sha, a) && Linked(sha, b) && JsonPayloads(a) && JsonPayloads(b)
    requires i < |a| && i < |b| && a[i].eventHash == b[i].eventHash
    ensures a[i].envelope == b[i].envelope && a[i].chainSeq == b[i].chainSeq && Same(a[i].payload, b[i].payload)
    ensures HashBefore(a, i) == HashBefore(b, i)
  {
    hide EnvelopeMembers, AuditText, Valid, Same;
    assert RowFault(sha, a, i) == None && RowFault(sha, b, i) == None;
    EnvelopeDetermined(a[i].envelope, b[i].envelope);
    TextIsUnambiguous(a[i].payload, b[i].payload);
  }

  lemma {:induction false} SameHashSameHistory(sha: string -> string, a: seq<Row>, b: seq<Row>, n: nat)
    requires CollisionFree(sha) && Linked(sha, a) && Linked(sha, b) && JsonPayloads(a) && JsonPayloads(b)
    requires n <= |a| && n <= |b| && HashBefore(a, n) == HashBefore(b, n)
    ensures forall i :: 0 <= i < n ==>
      a[i].envelope == b[i].envelope && a[i].chainSeq == b[i].chainSeq &&
      a[i].eventHash == b[i].eventHash && Same(a[i].payload, b[i].payload)
  {
    if n > 0 {
      SameHashSameEvent(sha, a, b, n - 1);
      hide Linked, JsonPayloads, CollisionFree, Same;
      SameHashSameHistory(sha, a, b, n - 1);
    }
  }

  /** Two non-empty ledgers that verify against one head row have the same length, hashed fields and payloads. */
  lemma TamperEvident(sha: string -> string, a: Chain, b: Chain)
    requires CollisionFree(sha) && JsonPayloads(a.rows) && JsonPayloads(b.rows)
    requires Verifies(sha, a) && Verifies(sha, b) && a.head == b.head && a.rows != [] && b.rows != []
    ensures |a.rows| == |b.rows|
    ensures forall i :: 0 <= i < |a.rows| ==>
      a.rows[i].envelope == b.rows[i].envelope && a.rows[i].chainSeq == b.rows[i].chainSeq &&
      a.rows[i].eventHash == b.rows[i].eventHash && Same(a.rows[i].payload, b.rows[i].payload)
  {
    SameHashSameHistory(sha, a.rows, b.rows, |a.rows|);
  }

  /** Neither the receipt times nor the correlation ids are protected: any others verify as well. */
  lemma UnhashedFieldsAreFree(sha: string -> string, chain: Chain, i: nat, correlationId: string, recordedAt: string)
    requires Verifies(sha, chain) && i < |chain.rows|
    ensures var row := chain.rows[i].(correlationId := correlationId, recordedAt := recordedAt);
            Verifies(sha, chain.(rows := chain.rows[i := row]))
  {
    hide EventHash, PayloadHash;
    var rows := chain.rows[i := chain.rows[i].(correlationId := correlationId, recordedAt := recordedAt)];
    forall k | 0 <= k < |rows| ensures RowFault(sha, rows, k) == None {
      assert RowFault(sha, chain.rows, k) == None;
      assert HashBefore(rows, k) == HashBefore(chain.rows, k);
    }
  }

  /** Nothing is checked once every event is gone: the head row of an emptied ledger is not looked at. */
  lemma EmptiedLedgerVerifies(sha: string -> string, chain: Chain)
    ensures Verifies(sha, chain.(rows := []))
  {
  }

  // ---------------------------------------------------------------------------
  // Appends do not run into the uniqueness rules
  // ---------------------------------------------------------------------------

  ghost predicate NeverGenesis(sha: string -> string) {
    forall a :: sha(a) != GENESIS
  }

  lemma {:induction false} HashesDistinct(sha: string -> string, rows: seq<Row>, i: nat, j: nat)
    requires CollisionFree(sha) && NeverGenesis(sha) && Linked(sha, rows) && i <= |rows| && j <= |rows|
    requires HashBefore(rows, i) == HashBefore(rows, j)
    ensures i == j
    decreases i + j
  {
    hide EnvelopeMembers, AuditText, PayloadHash;
    if i > 0 {
      assert RowFault(sha, rows, i - 1) == None;
    }
    if j > 0 {
      assert RowFault(sha, rows, j - 1) == None;
    }
    if i > 0 && j > 0 {
      EnvelopeDetermined(rows[i - 1].envelope, rows[j - 1].envelope);
      HashesDistinct(sha, rows, i - 1, j - 1);
    }
  }

  /** With a hash that neither collides nor yields 64 zeros, a fresh id is all an append needs from the database. */
  lemma FreshAppendsAreUnique(sha: string -> string, chain: Chain, input: AppendInput, stored: Json, stamp: Stamp)
    requires CollisionFree(sha) && NeverGenesis(sha) && Sound(sha, chain)
    requires forall e :: e in chain.rows ==> e.envelope.eventId != stamp.eventId
    ensures Unique(chain.rows, RowOf(sha, chain, input, stored, stamp))
  {
    hide EnvelopeMembers, AuditText, PayloadHash, Linked;
    var rows, row := chain.rows, RowOf(sha, chain, input, stored, stamp);
    forall i | 0 <= i < |rows|
      ensures rows[i].chainSeq != row.chainSeq && rows[i].envelope.previousEventHash != row.envelope.previousEventHash
      ensures rows[i].eventHash != row.eventHash
    {
      LinkedRow(sha, rows, i);
      if HashBefore(rows, i) == HashBefore(rows, |rows|) { HashesDistinct(sha, rows, i, |rows|); }
      if rows[i].eventHash == row.eventHash { EnvelopeDetermined(rows[i].envelope, row.envelope); }
    }
  }

  lemma LinkedRow(sha: string -> string, rows: seq<Row>, i: nat)
    requires Linked(sha, rows) && i < |rows|
    ensures rows[i].chainSeq == i + 1 && rows[i].envelope.previousEventHash == HashBefore(rows, i)
    ensures EventHash(sha, rows[i].envelope) == rows[i].eventHash
  {
    assert RowFault(sha, rows, i) == None;
  }

  /** Inserting the missing head row before the append does not change what is appended. */
  lemma InsertedHead(sha: string -> string, chain: Chain, input: AppendInput, stamp: Stamp)
    ensures forall stored ::
      RowOf(sha, Chain(chain.rows, Some(HeadOf(chain))), input, stored, stamp) == RowOf(sha, chain, input, stored, stamp)
  {
    hide EventHash, PayloadHash;
  }

  // ---------------------------------------------------------------------------
  // The store
  // ---------------------------------------------------------------------------

  datatype Receipt = Written(row: Row) | NotWritten(why: Refusal)

  /** Both tables and the answer after one append: a refusal or a replay changes neither table. */
  function Appending(sha: string -> string, db: Tables, tenant: string, input: AppendInput, stamp: Stamp): (Tables, Receipt) {
    var chain := ChainOf(db, tenant);
    match AppendTo(sha, chain, tenant, input, stamp, IdFree(db.events, tenant, stamp.eventId))
    case Refused(why) => (db, NotWritten(why))
    case Stored(next, row) => (if next == chain then db else WithChain(db, tenant, next), Written(row))
  }

  ghost predicate AllSound(sha: string -> string, db: Tables) {
    forall t :: Sound(sha, ChainOf(db, t))
  }

  /** An append keeps every chain sound, and leaves the chains of all other tenants as they were. */
  lemma AppendingKeepsSound(sha: string -> string, db: Tables, tenant: string, input: AppendInput, stamp: Stamp)
    requires AllSound(sha, db)
    ensures var after := Appending(sha, db, tenant, input, stamp).0;
            AllSound(sha, after) && forall t :: t != tenant ==> ChainOf(after, t) == ChainOf(db, t)
  {
    AppendKeepsSound(sha, ChainOf(db, tenant), tenant, input, stamp, IdFree(db.events, tenant, stamp.eventId));
    StoredHasHead(sha, ChainOf(db, tenant), tenant, input, stamp, IdFree(db.events, tenant, stamp.eventId));
    hide Sound, AppendTo, IdFree;
  }

  lemma StoredHasHead(sha: string -> string, chain: Chain, tenant: string, input: AppendInput, stamp: Stamp, idFree: bool)
    ensures var r := AppendTo(sha, chain, tenant, input, stamp, idFree);
            r.Stored? && r.chain != chain ==> r.chain.head.Some?
  {
    hide AuditText, Parse, RowOf, Unique;
  }

  class PgEventStore {
    const sha: string -> string
    var events: map<string, seq<Row>>
    var heads: map<string, Head>

    constructor (sha: string -> string)
      ensures Valid() && this.sha == sha && events == map[] && heads == map[]
    {
      this.sha := sha;
      events, heads := map[], map[];
    }

    ghost predicate Valid()
      reads this
    {
      AllSound(sha, Tables(events, heads))
    }

    /** Appends to the session's chain. */
    method Append(tenant: string, input: AppendInput, stamp: Stamp) returns (receipt: Receipt)
      requires Valid()
      modifies this
      ensures Valid()
      ensures (Tables(events, heads), receipt) == Appending(sha, old(Tables(events, heads)), tenant, input, stamp)
    {
      AppendingKeepsSound(sha, Tables(events, heads), tenant, input, stamp);
      hide AllSound, AuditText, Parse, PayloadOf, PayloadHash, RowOf, Unique, IdFree, WithChain;
      if input.tenantId != tenant {
        return NotWritten(TenantMismatch);
      }
      var parsed := Parse(AuditText(PayloadOf(input)));
      if parsed.None? {
        return NotWritten(PayloadNotJson);
      }
      var stored := parsed.value;
      if input.payloadHash != "" && input.payloadHash != PayloadHash(sha, stored) {
        return NotWritten(PayloadHashRefused);
      }
      var rows := if tenant in events then events[tenant] else [];
      if input.idempotencyKey != "" {
        var existing := FindKeyed(rows, input.idempotencyKey, input.eventType);
        if existing.Some? {
          return Written(existing.value);
        }
      }
      receipt := Write(tenant, input, stored, stamp);
    }

    /** Inserts the next row and advances the head by one, or rolls the inserted head row back. */
    method Write(tenant: string, input: AppendInput, stored: Json, stamp: Stamp) returns (receipt: Receipt)
      modifies this
      ensures var db := old(Tables(events, heads));
              var chain := ChainOf(db, tenant);
              var row := RowOf(sha, chain, input, stored, stamp);
              if IdFree(db.events, tenant, stamp.eventId) && Unique(chain.rows, row) then
                receipt == Written(row) &&
                Tables(events, heads) == WithChain(db, tenant, Chain(chain.rows + [row], Some(Head(row.chainSeq, row.eventHash))))
              else receipt == NotWritten(UniqueViolation) && Tables(events, heads) == db
    {
      InsertedHead(sha, ChainOf(Tables(events, heads), tenant), input, stamp);
      hide RowOf, Unique, IdFree, GENESIS;
      var rows := if tenant in events then events[tenant] else [];
      var savedHeads := heads;
      if tenant !in heads {
        heads := heads[tenant := Head(0, GENESIS)];
      }
      var row := RowOf(sha, Chain(rows, Some(heads[tenant])), input, stored, stamp);
      if !IdFree(events, tenant, stamp.eventId) || !Unique(rows, row) {
        heads := savedHeads;
        return NotWritten(UniqueViolation);
      }
      events := events[tenant := rows + [row]];
      heads := heads[tenant := Head(row.chainSeq, row.eventHash)];
      assert heads == savedHeads[tenant := Head(row.chainSeq, row.eventHash)];
      return Written(row);
    }

    /** Re-verifies a tenant's chain and says where the first check fails. */
    method VerifyChain(tenant: string) returns (v: Verification)
      ensures var chain := ChainOf(Tables(events, heads), tenant);
              v.count == |chain.rows| && (v.ok <==> Verifies(sha, chain)) && (!v.ok ==> Explains(sha, chain, v))
    {
      hide EventHash, PayloadHash, GENESIS;
      var rows := if tenant in events then events[tenant] else [];
      var prev, expectedSeq := GENESIS, 1;
      while expectedSeq <= |rows|
        invariant 1 <= expectedSeq <= |rows| + 1
        invariant prev == HashBefore(rows, expectedSeq - 1)
        invariant Linked(sha, rows[..expectedSeq - 1])
      {
        hide Linked;
        var i := expectedSeq - 1;
        var row := rows[i];
        var failed: Option<Fault> :=
          if row.chainSeq != expectedSeq then Some(SequenceGap)
          else if row.envelope.previousEventHash != prev then Some(LinkBroken)
          else if PayloadHash(sha, row.payload) != row.envelope.payloadHash then Some(PayloadHashMismatch)
          else if EventHash(sha, row.envelope) != row.eventHash then Some(EventHashMismatch)
          else None;
        assert failed == RowFault(sha, rows, i);
        if failed.Some? {
          BrokenChain(sha, rows, i, failed.value);
          return Verification(false, |rows|, Some(row.chainSeq), failed);
        }
        LinkedExtends(sha, rows, i);
        prev := row.eventHash;
        expectedSeq := expectedSeq + 1;
      }
      hide Linked, RowFault;
      assert rows[..|rows|] == rows;
      if rows != [] {
        if tenant !in heads || heads[tenant].lastSeq != expectedSeq - 1 || heads[tenant].lastHash != prev {
          return Verification(false, |rows|, None, Some(HeadMismatch));
        }
      }
      return Verification(true, |rows|, None, None);
    }
  }

  lemma BrokenChain(sha: string -> string, rows: seq<Row>, i: nat, fault: Fault)
    requires i < |rows| && Linked(sha, rows[..i]) && RowFault(sha, rows, i) == Some(fault)
    ensures !Linked(sha, rows) && FirstFault(sha, rows, i, fault)
  {
    hide RowFault;
  }

  /** A failing report names the first event that fails a check and the check, or else the head row. */
  ghost predicate Explains(sha: string -> string, chain: Chain, v: Verification) {
    match v.brokenAtSeq
    case None => v.reason == Some(HeadMismatch) && Linked(sha, chain.rows) && !HeadAgrees(chain)
    case Some(n) =>
      v.reason.Some? &&
      exists i :: 0 <= i < |chain.rows| && FirstFault(sha, chain.rows, i, v.reason.value) && n == chain.rows[i].chainSeq
  }

  ghost predicate FirstFault(sha: string -> string, rows: seq<Row>, i: nat, fault: Fault)
    requires i < |rows|
  {
    Linked(sha, rows[..i]) && RowFault(sha, rows, i) == Some(fault)
  }

  lemma LinkedExtends(sha: string -> string, rows: seq<Row>, i: nat)
    requires i < |rows| && Linked(sha, rows[..i]) && RowFault(sha, rows, i) == None
    ensures Linked(sha, rows[..i + 1])
  {
    LinkedPrefix(sha, rows[..i], rows[i]);
    assert rows[..i + 1] == rows[..i] + [rows[i]];
    assert HashBefore(rows[..i + 1], i) == HashBefore(rows, i);
  }
}
