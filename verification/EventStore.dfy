/** The in-memory event store: one list of events, chained per aggregate. */
module EventStoring {
  import opened Sums
  import opened CanonicalJson
  import opened JoinedKeys
  import opened Ledger

  datatype StoredEvent = StoredEvent(envelope: Envelope, payload: Json, eventHash: string, recordedAt: string, correlationId: string)

  function PreviousHash(events: seq<StoredEvent>, i: nat): string
    requires i <= |events|
  {
    if i == 0 then GENESIS else events[i - 1].eventHash
  }

  /** The event at position `i` follows its predecessor and hashes as stored. */
  predicate Follows(sha: string -> string, events: seq<StoredEvent>, i: nat)
    requires i < |events|
  {
    events[i].envelope.previousEventHash == PreviousHash(events, i) && EventHash(sha, events[i].envelope) == events[i].eventHash
  }

  ghost predicate Chained(sha: string -> string, events: seq<StoredEvent>) {
    forall i :: 0 <= i < |events| ==> Follows(sha, events, i)
  }

  /** The events filed under one chain key. */
  function OfKey(events: seq<StoredEvent>, keys: seq<string>, key: string): seq<StoredEvent>
    requires |events| == |keys|
  {
    if events == [] then []
    else OfKey(Front(events), Front(keys), key) + if Last(keys) == key then [Last(events)] else []
  }

  function ChainLookup(tenantId: string, aggregateType: string, aggregateId: string): string {
    tenantId + ":" + Or(aggregateType, "TENANT") + ":" + Or(aggregateId, tenantId)
  }

  function IdempotencyLookup(tenantId: string, key: string, eventType: string): string {
    tenantId + ":" + key + ":" + eventType
  }

  predicate OfAggregate(e: StoredEvent, tenantId: string, aggregateType: string, aggregateId: string) {
    e.envelope.tenantId == tenantId && e.envelope.aggregateType == aggregateType && e.envelope.aggregateId == aggregateId
  }

  function ByAggregate(events: seq<StoredEvent>, tenantId: string, aggregateType: string, aggregateId: string): seq<StoredEvent> {
    if events == [] then []
    else
      ByAggregate(Front(events), tenantId, aggregateType, aggregateId)
      + if OfAggregate(Last(events), tenantId, aggregateType, aggregateId) then [Last(events)] else []
  }

  lemma ChainedExtends(sha: string -> string, events: seq<StoredEvent>, e: StoredEvent)
    requires Chained(sha, events) && EventHash(sha, e.envelope) == e.eventHash
    requires e.envelope.previousEventHash == PreviousHash(events, |events|)
    ensures Chained(sha, events + [e])
  {
    hide EventHash;
    forall i | 0 <= i < |events + [e]| ensures Follows(sha, events + [e], i) {
      if i < |events| { assert Follows(sha, events, i); }
    }
  }

  /** The stored event carries the caller's fields, with the defaults of the fields left empty. */
  predicate EventFor(sha: string -> string, e: StoredEvent, input: AppendInput, stamp: Stamp) {
    var v := e.envelope;
    && v.eventId == stamp.eventId && v.occurredAt == stamp.occurredAt && e.recordedAt == stamp.occurredAt
    && v.eventType == input.eventType && v.eventVersion == 1 && v.tenantId == input.tenantId
    && v.actorId == input.actorId && v.actorRole == input.actorRole && v.actorType == Or(input.actorType, InferActorType(input.actorRole))
    && v.aggregateType == Or(input.aggregateType, "DRAW_REQUEST") && v.aggregateId == input.aggregateId
    && v.stateBefore == input.stateBefore && v.stateAfter == input.stateAfter
    && e.payload == PayloadOf(input) && v.payloadHash == Or(input.payloadHash, PayloadHash(sha, e.payload))
    && v.evidenceManifestHash == input.evidenceManifestHash && v.policyVersion == input.policyVersion
    && v.idempotencyKey == input.idempotencyKey
    && e.correlationId == Or(input.correlationId, Or(input.aggregateId, stamp.eventId))
  }

  function EventLookup(e: StoredEvent): string {
    IdempotencyLookup(e.envelope.tenantId, e.envelope.idempotencyKey, e.envelope.eventType)
  }

  /** The replay table holds exactly the stored events that carry an idempotency key, each under its own lookup. */
  ghost predicate Remembers(byIdempotency: map<string, StoredEvent>, events: seq<StoredEvent>) {
    && (forall k :: k in byIdempotency ==>
         byIdempotency[k] in events && byIdempotency[k].envelope.idempotencyKey != "" && EventLookup(byIdempotency[k]) == k)
    && (forall e :: e in events && e.envelope.idempotencyKey != "" ==>
         EventLookup(e) in byIdempotency && byIdempotency[EventLookup(e)] == e)
  }

  lemma OfKeyGrows(events: seq<StoredEvent>, keys: seq<string>, e: StoredEvent, key: string)
    requires |events| == |keys|
    ensures OfKey(events + [e], keys + [key], key) == OfKey(events, keys, key) + [e]
    ensures forall other :: other != key ==> OfKey(events + [e], keys + [key], other) == OfKey(events, keys, other)
  {
    assert Front(events + [e]) == events && Front(keys + [key]) == keys;
  }

  lemma RememberedGrows(byIdempotency: map<string, StoredEvent>, events: seq<StoredEvent>, e: StoredEvent)
    requires Remembers(byIdempotency, events) && (e.envelope.idempotencyKey != "" ==> EventLookup(e) !in byIdempotency)
    ensures Remembers(if e.envelope.idempotencyKey != "" then byIdempotency[EventLookup(e) := e] else byIdempotency, events + [e])
  {
    hide EventLookup;
  }

  function HashAt(lastHashByChain: map<string, string>, key: string): string {
    if key in lastHashByChain then lastHashByChain[key] else GENESIS
  }

  /** Every chain verifies and its last hash is the one remembered. */
  ghost predicate Tracked(sha: string -> string, events: seq<StoredEvent>, keys: seq<string>, lastHashByChain: map<string, string>, key: string)
    requires |events| == |keys|
  {
    var chain := OfKey(events, keys, key);
    Chained(sha, chain) && HashAt(lastHashByChain, key) == PreviousHash(chain, |chain|)
  }

  lemma TrackedGrows(sha: string -> string, events: seq<StoredEvent>, keys: seq<string>, lastHashByChain: map<string, string>,
                     e: StoredEvent, key: string, other: string)
    requires |events| == |keys| && EventHash(sha, e.envelope) == e.eventHash
    requires Tracked(sha, events, keys, lastHashByChain, key) && Tracked(sha, events, keys, lastHashByChain, other)
    requires e.envelope.previousEventHash == HashAt(lastHashByChain, key)
    ensures Tracked(sha, events + [e], keys + [key], lastHashByChain[key := e.eventHash], other)
  {
    hide EventHash, GENESIS, Chained, OfKey;
    OfKeyGrows(events, keys, e, key);
    ChainedExtends(sha, OfKey(events, keys, key), e);
  }

  lemma AllTrackedGrow(sha: string -> string, events: seq<StoredEvent>, keys: seq<string>, lastHashByChain: map<string, string>,
                       e: StoredEvent, key: string, hashes: map<string, string>)
    requires |events| == |keys| && EventHash(sha, e.envelope) == e.eventHash
    requires forall other :: Tracked(sha, events, keys, lastHashByChain, other)
    requires e.envelope.previousEventHash == HashAt(lastHashByChain, key) && hashes == lastHashByChain[key := e.eventHash]
    ensures forall other :: Tracked(sha, events + [e], keys + [key], hashes, other)
  {
    hide EventHash, GENESIS, Tracked;
    forall other ensures Tracked(sha, events + [e], keys + [key], hashes, other) {
      TrackedGrows(sha, events, keys, lastHashByChain, e, key, other);
    }
  }

  class EventStore {
    const sha: string -> string
    var events: seq<StoredEvent>
    var byIdempotency: map<string, StoredEvent>
    var lastHashByChain: map<string, string>
    // the chain key each event was linked under, which the stored event does not keep
    ghost var keys: seq<string>

    constructor (sha: string -> string)
      ensures Valid() && this.sha == sha && events == [] && keys == []
    {
      this.sha := sha;
      events, byIdempotency, lastHashByChain, keys := [], map[], map[], [];
    }

    function LastHash(key: string): string
      reads this
    {
      HashAt(lastHashByChain, key)
    }

    /** Every chain verifies, and the store remembers the hash its next event has to follow. */
    ghost predicate Valid()
      reads this
    {
      |keys| == |events| && Remembers(byIdempotency, events)
      && forall key :: Tracked(sha, events, keys, lastHashByChain, key)
    }

    /** Adds an event that follows the last one of its chain and repeats no stored idempotency key. */
    method Record(e: StoredEvent, key: string)
      requires Valid() && (e.envelope.idempotencyKey != "" ==> EventLookup(e) !in byIdempotency)
      requires e.envelope.previousEventHash == LastHash(key) && EventHash(sha, e.envelope) == e.eventHash
      modifies this
      ensures Valid() && events == old(events) + [e] && keys == old(keys) + [key]
      ensures byIdempotency == if e.envelope.idempotencyKey != "" then old(byIdempotency)[EventLookup(e) := e] else old(byIdempotency)
    {
      RememberedGrows(byIdempotency, events, e);
      hide EventHash, Tracked, Remembers, EventLookup, GENESIS;
      AllTrackedGrow(sha, events, keys, lastHashByChain, e, key, lastHashByChain[key := e.eventHash]);
      events := events + [e];
      lastHashByChain := lastHashByChain[key := e.eventHash];
      keys := keys + [key];
      if e.envelope.idempotencyKey != "" {
        byIdempotency := byIdempotency[EventLookup(e) := e];
      }
    }

    /** Appends to the chain of the named aggregate, unless the key repeats; `None` where the tenant is missing. */
    method Append(input: AppendInput, stamp: Stamp) returns (r: Option<StoredEvent>)
      requires Valid()
      modifies this
      ensures Valid()
      ensures var lookup := IdempotencyLookup(input.tenantId, input.idempotencyKey, input.eventType);
              if input.tenantId == "" then r == None && unchanged(this)
              else if input.idempotencyKey != "" && lookup in old(byIdempotency) then r == Some(old(byIdempotency)[lookup]) && unchanged(this)
              else
                r.Some? && events == old(events) + [r.value]
                && keys == old(keys) + [ChainLookup(input.tenantId, input.aggregateType, input.aggregateId)]
                && EventFor(sha, r.value, input, stamp) && r.value.eventHash == EventHash(sha, r.value.envelope)
                && r.value.envelope.previousEventHash
                   == old(LastHash(ChainLookup(input.tenantId, input.aggregateType, input.aggregateId)))
                && byIdempotency == if input.idempotencyKey != "" then old(byIdempotency)[lookup := r.value] else old(byIdempotency)
    {
      if input.tenantId == "" { return None; }
      var payload := PayloadOf(input);
      var payloadHash := Or(input.payloadHash, PayloadHash(sha, payload));
      var lookup := IdempotencyLookup(input.tenantId, input.idempotencyKey, input.eventType);
      if input.idempotencyKey != "" && lookup in byIdempotency { return Some(byIdempotency[lookup]); }
      var key := ChainLookup(input.tenantId, input.aggregateType, input.aggregateId);
      var envelope := Envelope(
        stamp.eventId, input.eventType, 1, stamp.occurredAt, input.tenantId,
        Or(input.actorType, InferActorType(input.actorRole)), input.actorId, input.actorRole,
        Or(input.aggregateType, "DRAW_REQUEST"), input.aggregateId, input.stateBefore, input.stateAfter,
        payloadHash, input.evidenceManifestHash, input.policyVersion, LastHash(key), input.idempotencyKey);
      var e := StoredEvent(envelope, payload, EventHash(sha, envelope), stamp.occurredAt,
                           Or(input.correlationId, Or(input.aggregateId, stamp.eventId)));
      hide EventHash, PayloadHash, PayloadOf, InferActorType, ChainLookup, IdempotencyLookup, Chained, GENESIS, OfKey;
      Record(e, key);
      return Some(e);
    }

    /** Re-verifies a list of events and names the first that does not follow. */
    method VerifyChain(list: seq<StoredEvent>) returns (ok: bool, brokenAt: Option<string>)
      ensures ok <==> Chained(sha, list)
      ensures ok <==> brokenAt.None?
      ensures !ok ==> exists i :: 0 <= i < |list| && !Follows(sha, list, i) && brokenAt == Some(list[i].envelope.eventId)
                                  && forall j :: 0 <= j < i ==> Follows(sha, list, j)
    {
      hide EventHash, GENESIS;
      var prev := GENESIS;
      for i := 0 to |list|
        invariant prev == PreviousHash(list, i)
        invariant forall j :: 0 <= j < i ==> Follows(sha, list, j)
      {
        if list[i].envelope.previousEventHash != prev || EventHash(sha, list[i].envelope) != list[i].eventHash {
          assert !Follows(sha, list, i);
          return false, Some(list[i].envelope.eventId);
        }
        prev := list[i].eventHash;
      }
      return true, None;
    }
  }

  // ---------------------------------------------------------------------------
  // Chains and aggregates
  // ---------------------------------------------------------------------------

  lemma ChainHolds(store: EventStore, key: string)
    requires store.Valid()
    ensures Chained(store.sha, OfKey(store.events, store.keys, key))
    ensures store.LastHash(key) == PreviousHash(OfKey(store.events, store.keys, key), |OfKey(store.events, store.keys, key)|)
  {
    hide EventHash, GENESIS, OfKey, Chained, Remembers;
    assert Tracked(store.sha, store.events, store.keys, store.lastHashByChain, key);
  }

  lemma LookupNames(t: string, ty: string, id: string, t': string, ty': string, id': string)
    requires ColonFree(t) && ColonFree(ty) && ty != "" && id != "" && ColonFree(t') && ColonFree(ty') && ty' != "" && id' != ""
    requires ChainLookup(t, ty, id) == ChainLookup(t', ty', id')
    ensures t == t' && ty == ty' && id == id'
  {
    hide ColonFree;
    assert ChainLookup(t, ty, id) == t + ":" + (ty + ":" + id);
    assert ChainLookup(t', ty', id') == t' + ":" + (ty' + ":" + id');
    SplitAtFirstColon(t, ty + ":" + id, t', ty' + ":" + id');
    SplitAtFirstColon(ty, id, ty', id');
  }

  /** The event named its aggregate, and was linked under that name. */
  ghost predicate Explicit(e: StoredEvent, key: string) {
    ColonFree(e.envelope.tenantId) && ColonFree(e.envelope.aggregateType) && e.envelope.aggregateType != "" && e.envelope.aggregateId != ""
    && key == ChainLookup(e.envelope.tenantId, e.envelope.aggregateType, e.envelope.aggregateId)
  }

  /** As long as every event named its aggregate, an aggregate's events are exactly one chain. */
  lemma {:induction false} AggregateIsChain(events: seq<StoredEvent>, keys: seq<string>, t: string, ty: string, id: string)
    requires |events| == |keys| && forall i :: 0 <= i < |events| ==> Explicit(events[i], keys[i])
    requires ColonFree(t) && ColonFree(ty) && ty != "" && id != ""
    ensures ByAggregate(events, t, ty, id) == OfKey(events, keys, ChainLookup(t, ty, id))
  {
    hide ColonFree, ChainLookup;
    if events != [] {
      AggregateIsChain(Front(events), Front(keys), t, ty, id);
      var e := Last(events).envelope;
      assert Explicit(Last(events), Last(keys));
      if Last(keys) == ChainLookup(t, ty, id) { LookupNames(e.tenantId, e.aggregateType, e.aggregateId, t, ty, id); }
    }
  }

  /** So each aggregate's history verifies. */
  lemma AggregatesVerify(store: EventStore, t: string, ty: string, id: string)
    requires store.Valid() && forall i :: 0 <= i < |store.events| ==> Explicit(store.events[i], store.keys[i])
    requires ColonFree(t) && ColonFree(ty) && ty != "" && id != ""
    ensures Chained(store.sha, ByAggregate(store.events, t, ty, id))
  {
    AggregateIsChain(store.events, store.keys, t, ty, id);
    ChainHolds(store, ChainLookup(t, ty, id));
    hide ColonFree, ChainLookup, Explicit, Chained, OfKey, ByAggregate;
  }

  // ---------------------------------------------------------------------------
  // When an aggregate's events verify
  // ---------------------------------------------------------------------------

  /** Event ids are random UUIDs; here it only matters that none repeats. */
  ghost predicate DistinctIds(events: seq<StoredEvent>) {
    forall i, j :: 0 <= i < j < |events| ==> events[i].envelope.eventId != events[j].envelope.eventId
  }

  ghost predicate ChainsHold(sha: string -> string, events: seq<StoredEvent>, keys: seq<string>)
    requires |events| == |keys|
  {
    forall key :: Chained(sha, OfKey(events, keys, key))
  }

  /** The aggregate's events are the first ones linked under some one key. */
  ghost predicate HeadsOneChain(list: seq<StoredEvent>, events: seq<StoredEvent>, keys: seq<string>)
    requires |events| == |keys|
  {
    exists key :: list <= OfKey(events, keys, key)
  }

  lemma ChainedPrefix(sha: string -> string, list: seq<StoredEvent>, whole: seq<StoredEvent>)
    requires Chained(sha, whole) && list <= whole
    ensures Chained(sha, list)
  {
    hide EventHash, GENESIS;
    forall i | 0 <= i < |list| ensures Follows(sha, list, i) { assert Follows(sha, whole, i); }
  }

  lemma FrontChainsHold(sha: string -> string, events: seq<StoredEvent>, keys: seq<string>)
    requires |events| == |keys| && events != [] && ChainsHold(sha, events, keys)
    ensures ChainsHold(sha, Front(events), Front(keys))
  {
    hide Chained;
    forall key ensures Chained(sha, OfKey(Front(events), Front(keys), key)) {
      ChainedPrefix(sha, OfKey(Front(events), Front(keys), key), OfKey(events, keys, key));
    }
  }

  lemma {:induction false} FiledIsStored(events: seq<StoredEvent>, keys: seq<string>, key: string, p: nat) returns (i: nat)
    requires |events| == |keys| && p < |OfKey(events, keys, key)|
    ensures i < |events| && events[i] == OfKey(events, keys, key)[p]
  {
    if p < |OfKey(Front(events), Front(keys), key)| {
      i := FiledIsStored(Front(events), Front(keys), key, p);
    } else {
      i := |events| - 1;
    }
  }

  lemma LastIsNew(events: seq<StoredEvent>, keys: seq<string>, key: string, p: nat)
    requires |events| == |keys| && events != [] && DistinctIds(events) && p < |OfKey(Front(events), Front(keys), key)|
    ensures OfKey(Front(events), Front(keys), key)[p].envelope.eventId != Last(events).envelope.eventId
  {
    var i := FiledIsStored(Front(events), Front(keys), key, p);
    assert events[i].envelope.eventId != events[|events| - 1].envelope.eventId;
  }

  /** Where ids do not repeat, an event sits in one place of one chain. */
  lemma {:induction false} FiledOnce(events: seq<StoredEvent>, keys: seq<string>, k: string, p: nat, l: string, q: nat)
    requires |events| == |keys| && DistinctIds(events)
    requires p < |OfKey(events, keys, k)| && q < |OfKey(events, keys, l)|
    requires OfKey(events, keys, k)[p].envelope.eventId == OfKey(events, keys, l)[q].envelope.eventId
    ensures k == l && p == q
  {
    var P, Q := OfKey(Front(events), Front(keys), k), OfKey(Front(events), Front(keys), l);
    if p < |P| && q < |Q| {
      FiledOnce(Front(events), Front(keys), k, p, l, q);
    } else if p < |P| {
      LastIsNew(events, keys, k, p);
    } else if q < |Q| {
      LastIsNew(events, keys, l, q);
    }
  }

  /** An event's predecessor, found among the events of its own chain. */
  lemma SamePredecessor(sha: string -> string, events: seq<StoredEvent>, keys: seq<string>, k: string, n: nat, l: string, m: nat)
    requires CollisionFree(sha) && NeverGenesis(sha) && |events| == |keys| && DistinctIds(events) && ChainsHold(sha, events, keys)
    requires n <= |OfKey(events, keys, k)| && m <= |OfKey(events, keys, l)|
    requires PreviousHash(OfKey(events, keys, k), n) == PreviousHash(OfKey(events, keys, l), m)
    ensures n == m && (n > 0 ==> k == l)
  {
    hide EnvelopeMembers, AuditText, OfKey, DistinctIds;
    var K, L := OfKey(events, keys, k), OfKey(events, keys, l);
    assert Chained(sha, K) && Chained(sha, L);
    if n > 0 { assert Follows(sha, K, n - 1); }
    if m > 0 { assert Follows(sha, L, m - 1); }
    if n > 0 && m > 0 {
      EnvelopeDetermined(K[n - 1].envelope, L[m - 1].envelope);
      FiledOnce(events, keys, k, n - 1, l, m - 1);
    }
  }

  lemma {:induction false} ChainedHeadsOneChain(sha: string -> string, events: seq<StoredEvent>, keys: seq<string>,
                                               t: string, ty: string, id: string)
    requires CollisionFree(sha) && NeverGenesis(sha) && |events| == |keys| && DistinctIds(events) && ChainsHold(sha, events, keys)
    requires Chained(sha, ByAggregate(events, t, ty, id))
    ensures HeadsOneChain(ByAggregate(events, t, ty, id), events, keys)
  {
    var list := ByAggregate(events, t, ty, id);
    if events == [] {
      assert list <= OfKey(events, keys, "");
    } else {
      var front, e, k := ByAggregate(Front(events), t, ty, id), Last(events), Last(keys);
      FrontChainsHold(sha, events, keys);
      ChainedPrefix(sha, front, list);
      ChainedHeadsOneChain(sha, Front(events), Front(keys), t, ty, id);
      var key :| front <= OfKey(Front(events), Front(keys), key);
      if list == front {
        assert list <= OfKey(events, keys, key);
      } else {
        var own := OfKey(Front(events), Front(keys), k);
        assert Follows(sha, list, |front|);
        assert Chained(sha, OfKey(events, keys, k)) && Follows(sha, OfKey(events, keys, k), |own|);
        assert PreviousHash(OfKey(Front(events), Front(keys), key), |front|) == PreviousHash(list, |front|);
        SamePredecessor(sha, Front(events), Front(keys), k, |own|, key, |front|);
        assert list <= OfKey(events, keys, k);
      }
    }
  }

  /**
   * Whatever was appended, an aggregate's list verifies exactly when its events
   * are the first ones of one chain: linked under one key, and before any event
   * of another aggregate under that key.
   */
  lemma VerifiesExactlyWhenOneChain(store: EventStore, t: string, ty: string, id: string)
    requires CollisionFree(store.sha) && NeverGenesis(store.sha) && store.Valid() && DistinctIds(store.events)
    ensures Chained(store.sha, ByAggregate(store.events, t, ty, id))
       <==> HeadsOneChain(ByAggregate(store.events, t, ty, id), store.events, store.keys)
  {
    var list := ByAggregate(store.events, t, ty, id);
    hide EventHash, GENESIS, OfKey, ByAggregate, DistinctIds, Chained, Remembers;
    forall key ensures Chained(store.sha, OfKey(store.events, store.keys, key)) { ChainHolds(store, key); }
    if Chained(store.sha, list) { ChainedHeadsOneChain(store.sha, store.events, store.keys, t, ty, id); }
    if HeadsOneChain(list, store.events, store.keys) {
      var key :| list <= OfKey(store.events, store.keys, key);
      ChainedPrefix(store.sha, list, OfKey(store.events, store.keys, key));
    }
  }

  /** An append that leaves its aggregate unnamed is stored as a draw request's but linked under another key. */
  lemma UnnamedAggregatesAreLinkedElsewhere(t: string, id: string)
    requires id != ""
    ensures ChainLookup(t, "", id) != ChainLookup(t, "DRAW_REQUEST", id)
  {
    assert ChainLookup(t, "", id)[|t| + 1] == 'T' && ChainLookup(t, "DRAW_REQUEST", id)[|t| + 1] == 'D';
  }

  lemma PairVerifies(sha: string -> string, e: StoredEvent, f: StoredEvent, alike: bool)
    requires NeverGenesis(sha) && EventHash(sha, e.envelope) == e.eventHash && EventHash(sha, f.envelope) == f.eventHash
    requires e.envelope.previousEventHash == GENESIS
    requires f.envelope.previousEventHash == if alike then e.eventHash else GENESIS
    ensures Chained(sha, [e, f]) <==> alike
  {
    hide EnvelopeMembers, AuditText, GENESIS;
    assert Follows(sha, [e, f], 0);
    assert Follows(sha, [e, f], 1) <==> alike;
  }

  lemma NoneFiled(key: string)
    ensures OfKey([], [], key) == []
  {
  }

  lemma OneFiled(e: StoredEvent, k: string, l: string)
    ensures OfKey([e], [k], l) == if k == l then [e] else []
  {
    assert Front([e]) == [] && Front([k]) == [];
  }

  lemma BothOfAggregate(e: StoredEvent, f: StoredEvent, t: string, ty: string, id: string)
    requires OfAggregate(e, t, ty, id) && OfAggregate(f, t, ty, id)
    ensures ByAggregate([e, f], t, ty, id) == [e, f]
  {
    assert Front([e, f]) == [e] && Front([e]) == [];
    assert ByAggregate([e], t, ty, id) == [e];
  }

  /** Two events of one draw, each appended with or without its aggregate type, verify exactly when both were appended alike. */
  method AppendTwo(sha: string -> string, a: AppendInput, b: AppendInput, s: Stamp, u: Stamp) returns (store: EventStore)
    requires NeverGenesis(sha) && a.tenantId != "" && a.aggregateId != "" && b.tenantId == a.tenantId && b.aggregateId == a.aggregateId
    requires a.aggregateType in {"", "DRAW_REQUEST"} && b.aggregateType in {"", "DRAW_REQUEST"}
    requires a.idempotencyKey == "" && b.idempotencyKey == ""
    ensures fresh(store) && store.Valid() && store.sha == sha && |store.events| == 2
    ensures var list := ByAggregate(store.events, a.tenantId, "DRAW_REQUEST", a.aggregateId);
            list == store.events && (Chained(sha, list) <==> a.aggregateType == b.aggregateType)
  {
    ghost var k, l := ChainLookup(a.tenantId, a.aggregateType, a.aggregateId), ChainLookup(b.tenantId, b.aggregateType, b.aggregateId);
    UnnamedAggregatesAreLinkedElsewhere(a.tenantId, a.aggregateId);
    hide EventHash, PayloadHash, PayloadOf, InferActorType, GENESIS, ChainLookup, IdempotencyLookup, OfKey, Chained, Remembers, Tracked, NeverGenesis, ByAggregate, HashAt;
    store := new EventStore(sha);
    ChainHolds(store, k);
    NoneFiled(k);
    var first := store.Append(a, s);
    OneFiled(first.value, k, l);
    ChainHolds(store, l);
    var second := store.Append(b, u);
    assert store.events == [first.value, second.value];
    PairVerifies(sha, first.value, second.value, k == l);
    BothOfAggregate(first.value, second.value, a.tenantId, "DRAW_REQUEST", a.aggregateId);
  }
}
