/** The log replays the state: what every operation keeps about the audit chain and its keys. */
module WorkflowLog {
  import opened Decimal
  import opened CanonicalJson
  import opened JoinedKeys
  import opened Ledger
  import opened DrawMachine
  import opened ConfirmationCsv
  import opened Workflow
  import opened WorkflowChanges

  // ---------------------------------------------------------------------------
  // Import keys
  // ---------------------------------------------------------------------------

  lemma DigitsColonFree(n: nat)
    ensures ColonFree(Numeral(n))
  {
    NumeralReads(n);
  }

  /** Batch, row number and purpose can be read back from an import key. */
  lemma RowKeyInjective(b: string, n: nat, suffix: string, b': string, n': nat, suffix': string)
    requires RowKey(b, n, suffix) == RowKey(b', n', suffix') && ColonFree(suffix) && ColonFree(suffix')
    ensures b == b' && n == n' && suffix == suffix'
  {
    DigitsColonFree(n);
    DigitsColonFree(n');
    hide Numeral, ColonFree;
    SplitAtLastColon(b + ":" + Numeral(n), suffix, b' + ":" + Numeral(n'), suffix');
    SplitAtLastColon(b, Numeral(n), b', Numeral(n'));
    NumeralInjective(n, n');
  }

  lemma RowSuffixesColonFree(suffix: string)
    requires RowSuffix(suffix)
    ensures ColonFree(suffix)
  {
  }

  /** A key of the import's own making, for a batch that has an event of its own. */
  ghost predicate RowKeyed(rows: seq<Row>, key: string) {
    exists b, n: nat, suffix :: IsRowKey(key, b, n, suffix) && KeyUsed(rows, b)
  }

  ghost predicate IsRowKey(key: string, b: string, n: nat, suffix: string) {
    RowSuffix(suffix) && key == RowKey(b, n, suffix)
  }

  /** Events of the import's types carry keys of the import's making. */
  ghost predicate BatchesKeyed(rows: seq<Row>) {
    forall i :: 0 <= i < |rows| && RowEventType(rows[i].envelope.eventType) ==> RowKeyed(rows, rows[i].envelope.idempotencyKey)
  }

  lemma UsedStaysUsed(rows: seq<Row>, later: seq<Row>, key: string)
    requires KeyUsed(rows, key) && |rows| <= |later| && rows == later[..|rows|]
    ensures KeyUsed(later, key)
  {
    var r :| r in rows && r.envelope.idempotencyKey == key;
    assert r in later;
  }

  lemma RowKeyedLater(rows: seq<Row>, later: seq<Row>, key: string)
    requires RowKeyed(rows, key) && |rows| <= |later| && rows == later[..|rows|]
    ensures RowKeyed(later, key)
  {
    hide KeyUsed;
    var b, n: nat, suffix :| IsRowKey(key, b, n, suffix) && KeyUsed(rows, b);
    UsedStaysUsed(rows, later, b);
  }

  lemma BatchesGrow(rows: seq<Row>, later: seq<Row>)
    requires BatchesKeyed(rows) && |later| == |rows| + 1 && rows == later[..|rows|]
    requires RowEventType(later[|rows|].envelope.eventType) ==> RowKeyed(rows, later[|rows|].envelope.idempotencyKey)
    ensures BatchesKeyed(later)
  {
    hide RowKeyed, RowEventType;
    forall i | 0 <= i < |later| && RowEventType(later[i].envelope.eventType) ensures RowKeyed(later, later[i].envelope.idempotencyKey) {
      assert i < |rows| ==> later[i] == rows[i];
      RowKeyedLater(rows, later, later[i].envelope.idempotencyKey);
    }
  }

  /** No row event of a batch whose key is still unused. */
  lemma UnusedBatchIsUnprocessed(rows: seq<Row>, batchKey: string)
    requires BatchesKeyed(rows) && !KeyUsed(rows, batchKey)
    ensures Unprocessed(rows, batchKey, 0)
  {
    hide KeyUsed, RowKey, RowEventType, RowSuffix;
    forall i, n: nat, suffix | 0 <= i < |rows| && RowEventType(rows[i].envelope.eventType) && n > 0 && RowSuffix(suffix)
      ensures rows[i].envelope.idempotencyKey != RowKey(batchKey, n, suffix)
    {
      var key := rows[i].envelope.idempotencyKey;
      var b, m: nat, other :| IsRowKey(key, b, m, other) && KeyUsed(rows, b);
      RowSuffixesColonFree(suffix);
      RowSuffixesColonFree(other);
      if key == RowKey(batchKey, n, suffix) { RowKeyInjective(b, m, other, batchKey, n, suffix); }
    }
  }

  lemma UnprocessedGrows(rows: seq<Row>, later: seq<Row>, batchKey: string, done: nat, done': nat)
    requires Unprocessed(rows, batchKey, done) && done <= done' && |later| == |rows| + 1 && rows == later[..|rows|]
    requires var row := later[|rows|].envelope;
             RowEventType(row.eventType) ==>
               exists n: nat, suffix :: IsRowKey(row.idempotencyKey, batchKey, n, suffix) && n <= done'
    ensures Unprocessed(later, batchKey, done')
  {
    hide RowKey, RowEventType, RowSuffix;
    var last := later[|rows|].envelope;
    forall i, n: nat, suffix | 0 <= i < |later| && RowEventType(later[i].envelope.eventType) && n > done' && RowSuffix(suffix)
      ensures later[i].envelope.idempotencyKey != RowKey(batchKey, n, suffix)
    {
      if i == |rows| {
        var m: nat, other :| IsRowKey(last.idempotencyKey, batchKey, m, other) && m <= done';
        RowSuffixesColonFree(suffix);
        RowSuffixesColonFree(other);
        if last.idempotencyKey == RowKey(batchKey, n, suffix) { RowKeyInjective(batchKey, m, other, batchKey, n, suffix); }
      } else {
        assert later[i] == rows[i];
      }
    }
  }

  // ---------------------------------------------------------------------------
  // The log against the draws
  // ---------------------------------------------------------------------------

  function StatusIn(draws: map<string, DrawRequest>, id: string): Option<Status> {
    if id in draws then Some(draws[id].status) else None
  }

  /** Each draw's events form a path of the state machine that ends in the status of its row. */
  ghost predicate Replays(rows: seq<Row>, draws: map<string, DrawRequest>) {
    forall id :: Replay(rows, id) == Some(StatusIn(draws, id))
  }

  lemma PlainEventReplays(rows: seq<Row>, later: seq<Row>, draws: map<string, DrawRequest>, now: map<string, DrawRequest>)
    requires Replays(rows, draws) && |later| == |rows| + 1 && rows == later[..|rows|] && later[|rows|].envelope.stateAfter.None?
    requires forall id :: StatusIn(draws, id) == StatusIn(now, id)
    ensures Replays(later, now)
  {
    hide Replay, StatusIn;
    assert later == rows + [later[|rows|]];
    forall id ensures Replay(later, id) == Some(StatusIn(now, id)) {
      ReplayOther(rows, later[|rows|], id);
    }
  }

  lemma MoveReplays(rows: seq<Row>, later: seq<Row>, draws: map<string, DrawRequest>, next: DrawRequest)
    requires Replays(rows, draws) && |later| == |rows| + 1 && rows == later[..|rows|]
    requires var row := later[|rows|].envelope;
             row.aggregateId == next.id && row.stateBefore == TextOf(StatusIn(draws, next.id)) && row.stateAfter == Some(StatusName(next.status))
    requires Follows(StatusIn(draws, next.id), next.status)
    ensures Replays(later, draws[next.id := next])
  {
    hide Replay, Follows, StatusName;
    var now := draws[next.id := next];
    assert later == rows + [later[|rows|]];
    forall id ensures Replay(later, id) == Some(StatusIn(now, id)) {
      if id == next.id {
        ReplayMove(rows, later[|rows|], id, StatusIn(draws, id), next.status);
      } else {
        ReplayOther(rows, later[|rows|], id);
      }
    }
  }

  // ---------------------------------------------------------------------------
  // The invariant
  // ---------------------------------------------------------------------------

  ghost predicate LogInv(cfg: Config, s: State) {
    Sound(cfg.sha, s.chain) && Keyed(s.draws) && Replays(s.chain.rows, s.draws)
    && CreationsKeyed(s.chain.rows, s.draws) && StagingsKeyed(s.chain.rows, s.batches) && BatchesKeyed(s.chain.rows)
  }

  ghost predicate KeysKept(draws: map<string, DrawRequest>, now: map<string, DrawRequest>) {
    forall id :: id in draws ==> id in now && now[id].idempotencyKey == draws[id].idempotencyKey
  }

  lemma CreationsGrow(rows: seq<Row>, later: seq<Row>, draws: map<string, DrawRequest>, now: map<string, DrawRequest>)
    requires CreationsKeyed(rows, draws) && |later| == |rows| + 1 && rows == later[..|rows|] && KeysKept(draws, now)
    requires later[|rows|].envelope.eventType == "DRAW_CREATED" ==> DrawWithKey(now, later[|rows|].envelope.idempotencyKey)
    ensures CreationsKeyed(later, now)
  {
    forall i | 0 <= i < |later| && later[i].envelope.eventType == "DRAW_CREATED" ensures DrawWithKey(now, later[i].envelope.idempotencyKey) {
      if i < |rows| {
        assert later[i] == rows[i];
        var id :| id in draws && draws[id].idempotencyKey == rows[i].envelope.idempotencyKey;
        assert now[id].idempotencyKey == rows[i].envelope.idempotencyKey;
      }
    }
  }

  lemma StagingsGrow(rows: seq<Row>, later: seq<Row>, batches: map<string, Batch>, now: map<string, Batch>)
    requires StagingsKeyed(rows, batches) && |later| == |rows| + 1 && rows == later[..|rows|] && batches.Keys <= now.Keys
    requires later[|rows|].envelope.eventType == "CSV_BATCH_STAGED" ==> StagedUnder(now, later[|rows|].envelope.idempotencyKey)
    ensures StagingsKeyed(later, now)
  {
    forall i | 0 <= i < |later| && later[i].envelope.eventType == "CSV_BATCH_STAGED" ensures StagedUnder(now, later[i].envelope.idempotencyKey) {
      if i < |rows| {
        assert later[i] == rows[i];
        var b :| b in batches && rows[i].envelope.idempotencyKey == b + ":staged";
        assert b in now;
      }
    }
  }

  /** The parts of the invariant every logged event keeps, whatever it is about. */
  lemma LoggedKeepsKeys(cfg: Config, s: State, t: State, entry: Entry)
    requires LogInv(cfg, s) && Extended(cfg, s.chain, t.chain, entry) && KeysKept(s.draws, t.draws) && s.batches.Keys <= t.batches.Keys
    requires entry.eventType == "DRAW_CREATED" ==> DrawWithKey(t.draws, entry.idempotencyKey)
    requires entry.eventType == "CSV_BATCH_STAGED" ==> StagedUnder(t.batches, entry.idempotencyKey)
    requires RowEventType(entry.eventType) ==> RowKeyed(s.chain.rows, entry.idempotencyKey)
    ensures Sound(cfg.sha, t.chain) && CreationsKeyed(t.chain.rows, t.draws) && StagingsKeyed(t.chain.rows, t.batches)
    ensures BatchesKeyed(t.chain.rows)
  {
    hide Sound, Replays, DrawWithKey, StagedUnder, RowKeyed, RowEventType, KeysKept;
    assert EntryOf(t.chain.rows[|s.chain.rows|].envelope) == entry;
    CreationsGrow(s.chain.rows, t.chain.rows, s.draws, t.draws);
    StagingsGrow(s.chain.rows, t.chain.rows, s.batches, t.batches);
    BatchesGrow(s.chain.rows, t.chain.rows);
  }

  /** An event that moves no draw. */
  lemma PlainKeepsLog(cfg: Config, s: State, t: State, entry: Entry)
    requires LogInv(cfg, s) && Extended(cfg, s.chain, t.chain, entry) && entry.stateAfter.None?
    requires t.draws == s.draws && s.batches.Keys <= t.batches.Keys && entry.eventType != "DRAW_CREATED"
    requires entry.eventType == "CSV_BATCH_STAGED" ==> StagedUnder(t.batches, entry.idempotencyKey)
    requires RowEventType(entry.eventType) ==> RowKeyed(s.chain.rows, entry.idempotencyKey)
    ensures LogInv(cfg, t)
  {
    LoggedKeepsKeys(cfg, s, t, entry);
    hide Sound, RowKeyed, CreationsKeyed, StagingsKeyed, BatchesKeyed, Replays;
    PlainEventReplays(s.chain.rows, t.chain.rows, s.draws, t.draws);
  }

  /** An event that moves a draw, with the row saved in the state the event names. */
  lemma MoveKeepsLog(cfg: Config, s: State, t: State, entry: Entry, next: DrawRequest)
    requires LogInv(cfg, s) && Extended(cfg, s.chain, t.chain, entry)
    requires t.draws == s.draws[next.id := next] && s.batches.Keys <= t.batches.Keys
    requires next.id in s.draws ==> next.idempotencyKey == s.draws[next.id].idempotencyKey
    requires entry.aggregateId == next.id && entry.stateBefore == TextOf(StatusIn(s.draws, next.id))
    requires entry.stateAfter == Some(StatusName(next.status)) && Follows(StatusIn(s.draws, next.id), next.status)
    requires entry.eventType == "DRAW_CREATED" ==> next.idempotencyKey == entry.idempotencyKey
    requires entry.eventType != "CSV_BATCH_STAGED"
    requires RowEventType(entry.eventType) ==> RowKeyed(s.chain.rows, entry.idempotencyKey)
    ensures LogInv(cfg, t)
  {
    hide RowKeyed, RowEventType, StatusName, Follows;
    assert t.draws[next.id] == next;
    LoggedKeepsKeys(cfg, s, t, entry);
    hide Sound, CreationsKeyed, StagingsKeyed, BatchesKeyed, Replays;
    MoveReplays(s.chain.rows, t.chain.rows, s.draws, next);
  }

  // ---------------------------------------------------------------------------
  // Every change keeps it
  // ---------------------------------------------------------------------------

  lemma CreateKeepsLog(cfg: Config, s: State, t: State, env: Env, subject: string, input: DraftInput)
    requires LogInv(cfg, s) && CreateChange(cfg, s, t, env, subject, input)
    ensures LogInv(cfg, t)
  {
    hide LogInv, Extended, DrawWithKey, ParseMinor, RowChecks, NumberTaken;
    var d := t.draws[env.id(0, 0)];
    MoveKeepsLog(cfg, s, t, Entry("DRAW_CREATED", d.id, None, Some("DRAFT"), input.idempotencyKey, subject), d);
  }

  lemma UploadKeepsLog(cfg: Config, s: State, t: State, env: Env, subject: string, input: UploadInput)
    requires LogInv(cfg, s) && UploadChange(cfg, s, t, env, subject, input)
    ensures LogInv(cfg, t)
  {
    hide LogInv, Extended, KeyUsed, DocumentExists, Latest, Digest;
    var doc := NewDocument(cfg, s, env, subject, s.draws[input.drawId], input);
    PlainKeepsLog(cfg, s, t, Entry(if doc.supersedes.Some? then "EVIDENCE_SUPERSEDED" else "EVIDENCE_UPLOADED",
                                   s.draws[input.drawId].id, None, None, input.idempotencyKey, subject));
  }

  lemma VerifyKeepsLog(cfg: Config, s: State, t: State, subject: string, documentId: string, key: string)
    requires LogInv(cfg, s) && VerifyChange(cfg, s, t, subject, documentId, key)
    ensures LogInv(cfg, t)
  {
    hide LogInv, Extended, KeyUsed, FindDocument, VerificationOf;
    var i := FindDocument(s.documents, documentId).value;
    PlainKeepsLog(cfg, s, t, Entry("EVIDENCE_VERIFIED", s.documents[i].drawId, None, None, key, subject));
  }

  lemma SubmitKeepsLog(cfg: Config, s: State, t: State, env: Env, subject: string, drawId: string, key: string)
    requires LogInv(cfg, s) && SubmitChange(cfg, s, t, env, subject, drawId, key)
    ensures LogInv(cfg, t)
  {
    assert s.draws[drawId].id == drawId;
    hide LogInv, Extended, KeyUsed, CurrentDocuments, ManifestHash, Ids, RowChecks, StatusName;
    MoveKeepsLog(cfg, s, t, MoveEntry(s.draws[drawId], Submitted, "DRAW_SUBMITTED", key, subject), t.draws[drawId]);
  }

  lemma EvaluateKeepsLog(cfg: Config, s: State, t: State, env: Env, subject: string, drawId: string, key: string)
    requires LogInv(cfg, s) && EvaluateChange(cfg, s, t, env, subject, drawId, key)
    ensures LogInv(cfg, t)
  {
    assert s.draws[drawId].id == drawId;
    hide LogInv, Extended, KeyUsed, ManifestComplete, RowChecks, StatusName, AllowedTransitions;
    MoveKeepsLog(cfg, s, t, MoveEntry(s.draws[drawId], UnderReview, "DRAW_POLICY_EVALUATED", key, subject), t.draws[drawId]);
  }

  lemma ApproveKeepsLog(cfg: Config, s: State, t: State, env: Env, subject: string, input: ApproveInput)
    requires LogInv(cfg, s) && ApproveChange(cfg, s, t, env, subject, input)
    ensures LogInv(cfg, t)
  {
    var d := s.draws[input.drawId];
    assert d.id == input.drawId;
    hide LogInv, Extended, KeyUsed, DecisionMade, Cleared, RowChecks, StatusName, BindingHash, ParseMinor, PackOf, Approvers;
    if t.draws == s.draws {
      PlainKeepsLog(cfg, s, t, Entry("APPROVAL_RECORDED", d.id, None, None, input.idempotencyKey, subject));
    } else {
      MoveKeepsLog(cfg, s, t, MoveEntry(d, Approved, "DRAW_APPROVED", input.idempotencyKey, subject), t.draws[input.drawId]);
    }
  }

  lemma InstructKeepsLog(cfg: Config, s: State, t: State, env: Env, subject: string, input: InstructInput)
    requires LogInv(cfg, s) && InstructChange(cfg, s, t, env, subject, input)
    ensures LogInv(cfg, t)
  {
    var d := s.draws[input.drawId];
    assert d.id == input.drawId;
    hide LogInv, Extended, KeyUsed, RowChecks, StatusName, PayeeVerified, OpenHoldOn, Decided;
    MoveKeepsLog(cfg, s, t, MoveEntry(d, SettlementInstructed, "DRAW_SETTLEMENT_INSTRUCTED", input.idempotencyKey, subject), t.draws[input.drawId]);
  }

  lemma StageKeepsLog(cfg: Config, s: State, t: State, subject: string, batchKey: string, csv: string)
    requires LogInv(cfg, s) && StageChange(cfg, s, t, subject, batchKey, csv)
    ensures LogInv(cfg, t)
  {
    hide LogInv, Extended, Digest;
    assert StagedUnder(t.batches, batchKey + ":staged");
    PlainKeepsLog(cfg, s, t, Entry("CSV_BATCH_STAGED", batchKey, None, None, batchKey + ":staged", subject));
  }

  /** While a batch is imported: its own event is logged, and nothing yet for the rows still to come. */
  ghost predicate Importing(cfg: Config, s: State, batchKey: string, done: nat) {
    LogInv(cfg, s) && KeyUsed(s.chain.rows, batchKey) && Unprocessed(s.chain.rows, batchKey, done)
  }

  lemma ImportStarts(cfg: Config, s: State, t: State, batchKey: string, actor: string)
    requires LogInv(cfg, s) && !KeyUsed(s.chain.rows, batchKey)
    requires t == s.(chain := t.chain) && Extended(cfg, s.chain, t.chain, Entry("CSV_BATCH_IMPORTED", batchKey, None, None, batchKey, actor))
    ensures Importing(cfg, t, batchKey, 0)
  {
    var entry := Entry("CSV_BATCH_IMPORTED", batchKey, None, None, batchKey, actor);
    UnusedBatchIsUnprocessed(s.chain.rows, batchKey);
    UnprocessedGrows(s.chain.rows, t.chain.rows, batchKey, 0, 0);
    PlainKeepsLog(cfg, s, t, entry);
    hide LogInv, Unprocessed;
    assert t.chain.rows[|s.chain.rows|] in t.chain.rows;
  }

  lemma RowIsKeyed(rows: seq<Row>, b: string, n: nat, suffix: string)
    requires KeyUsed(rows, b) && RowSuffix(suffix)
    ensures RowKeyed(rows, RowKey(b, n, suffix)) && IsRowKey(RowKey(b, n, suffix), b, n, suffix)
  {
    assert IsRowKey(RowKey(b, n, suffix), b, n, suffix);
  }

  lemma ExceptionKeepsLog(cfg: Config, s: State, t: State, ic: ImportContext, row: CsvRow, drawId: Option<string>,
                          instructionId: Option<string>, confirmation: Option<Confirmation>, codes: seq<Mismatch>)
    requires Importing(cfg, s, ic.batchKey, ic.index) && ExceptionChange(cfg, s, t, ic, row, drawId, instructionId, confirmation, codes)
    ensures Importing(cfg, t, ic.batchKey, ic.index + 1)
  {
    hide LogInv, KeyUsed, Unprocessed, RowKey, ConfirmationExists, Sound;
    var key := RowKey(ic.batchKey, ic.index + 1, "break");
    var entry := Entry("DRAW_RECONCILIATION_BREAK", t.chain.rows[|s.chain.rows|].envelope.aggregateId, None, None, key, ic.entrant);
    RowIsKeyed(s.chain.rows, ic.batchKey, ic.index + 1, "break");
    hide RowKeyed, IsRowKey;
    PlainKeepsLog(cfg, s, t, entry);
    UsedStaysUsed(s.chain.rows, t.chain.rows, ic.batchKey);
    UnprocessedGrows(s.chain.rows, t.chain.rows, ic.batchKey, ic.index, ic.index + 1);
  }

  lemma SettleKeepsLog(cfg: Config, s: State, t: State, env: Env, ic: ImportContext, row: CsvRow)
    requires Importing(cfg, s, ic.batchKey, ic.index) && SettleChange(cfg, s, t, env, ic, row)
    ensures Importing(cfg, t, ic.batchKey, ic.index + 1)
  {
    var i := s.instructions[(row.externalPartnerId, row.settlementReference)];
    var d := s.draws[i.drawId];
    assert d.id == i.drawId;
    hide Importing, RowKey, ConfirmationExists, NewConfirmation, Mismatches, RowChecks, TwiceMoved;
    MovedTwiceKeepsLog(cfg, s, t, d, t.draws[d.id], ic, if t.draws[d.id].status.Reconciled? then "reconciled" else "exception");
  }

  lemma MovedTwiceKeepsLog(cfg: Config, s: State, t: State, d: DrawRequest, next: DrawRequest, ic: ImportContext, suffix: string)
    requires Importing(cfg, s, ic.batchKey, ic.index) && d.id in s.draws && s.draws[d.id] == d && d.status.SettlementInstructed?
    requires next.id == d.id && next.idempotencyKey == d.idempotencyKey && (next.status.Reconciled? || next.status.ReconciliationException?)
    requires t.draws == s.draws[d.id := next] && t.batches == s.batches
    requires RowSuffix(suffix) && TwiceMoved(cfg, s.chain, t.chain, d, next.status, ic, suffix)
    ensures Importing(cfg, t, ic.batchKey, ic.index + 1)
  {
    hide Importing, RowKey, Extended, StatusName, RowSuffix;
    var first := MoveEntry(d, SettlementConfirmed, "DRAW_SETTLEMENT_CONFIRMED", RowKey(ic.batchKey, ic.index + 1, "confirmed"), ic.entrant);
    var second := MoveEntry(d.(status := SettlementConfirmed), next.status, EventForTarget(next.status),
                            RowKey(ic.batchKey, ic.index + 1, suffix), ic.entrant);
    var mid :| ExtendedTwice(cfg, s.chain, mid, t.chain, first, second);
    var m := s.(chain := mid, draws := s.draws[d.id := d.(status := SettlementConfirmed)]);
    ConfirmingKeepsLog(cfg, s, m, d, first, ic);
    assert t.draws == m.draws[next.id := next];
    FinishingKeepsLog(cfg, m, t, next, second, ic, suffix);
  }

  lemma ConfirmingKeepsLog(cfg: Config, s: State, m: State, d: DrawRequest, entry: Entry, ic: ImportContext)
    requires Importing(cfg, s, ic.batchKey, ic.index) && d.id in s.draws && s.draws[d.id] == d && d.status.SettlementInstructed?
    requires m == s.(chain := m.chain, draws := s.draws[d.id := d.(status := SettlementConfirmed)])
    requires entry == MoveEntry(d, SettlementConfirmed, "DRAW_SETTLEMENT_CONFIRMED", RowKey(ic.batchKey, ic.index + 1, "confirmed"), ic.entrant)
    requires Extended(cfg, s.chain, m.chain, entry)
    ensures Importing(cfg, m, ic.batchKey, ic.index + 1)
  {
    hide LogInv, KeyUsed, Unprocessed, RowKey, Sound, StatusName;
    RowIsKeyed(s.chain.rows, ic.batchKey, ic.index + 1, "confirmed");
    hide RowKeyed, IsRowKey;
    MoveKeepsLog(cfg, s, m, entry, d.(status := SettlementConfirmed));
    UsedStaysUsed(s.chain.rows, m.chain.rows, ic.batchKey);
    UnprocessedGrows(s.chain.rows, m.chain.rows, ic.batchKey, ic.index, ic.index + 1);
  }

  lemma FinishingKeepsLog(cfg: Config, m: State, t: State, next: DrawRequest, entry: Entry, ic: ImportContext, suffix: string)
    requires Importing(cfg, m, ic.batchKey, ic.index + 1) && next.id in m.draws && m.draws[next.id].status.SettlementConfirmed?
    requires next.status.Reconciled? || next.status.ReconciliationException?
    requires t.draws == m.draws[next.id := next] && t.batches == m.batches && next.idempotencyKey == m.draws[next.id].idempotencyKey
    requires RowSuffix(suffix) && entry == MoveEntry(next.(status := SettlementConfirmed), next.status, EventForTarget(next.status),
                                                     RowKey(ic.batchKey, ic.index + 1, suffix), ic.entrant)
    requires Extended(cfg, m.chain, t.chain, entry)
    ensures Importing(cfg, t, ic.batchKey, ic.index + 1)
  {
    hide LogInv, KeyUsed, Unprocessed, RowKey, Sound, StatusName;
    RowIsKeyed(m.chain.rows, ic.batchKey, ic.index + 1, suffix);
    hide RowKeyed, IsRowKey, RowSuffix;
    MoveKeepsLog(cfg, m, t, entry, next);
    UsedStaysUsed(m.chain.rows, t.chain.rows, ic.batchKey);
    UnprocessedGrows(m.chain.rows, t.chain.rows, ic.batchKey, ic.index + 1, ic.index + 1);
  }
}
