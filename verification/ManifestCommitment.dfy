/** What a frozen manifest hash commits to: which documents, with which contents, and the text that is hashed. */
module ManifestCommitment {
  import opened Ordering
  import opened Decimal
  import opened CanonicalJson
  import opened CanonicalText
  import opened Ledger
  import opened DrawMachine
  import opened Workflow
  import opened WorkflowApproval
  import opened WorkflowRuns
  import opened WorkflowGuarantees
  import opened EventPayloads

  // ---------------------------------------------------------------------------
  // The hashed text
  // ---------------------------------------------------------------------------

  lemma ItemKeysAscend()
    ensures ComesBefore("content_hash", "document_id") && ComesBefore("document_id", "document_type") && ComesBefore("document_type", "version")
  {
    var a, b, c, d := "content_hash", "document_id", "document_type", "version";
    assert a[..0] == b[..0] && SplitsAt(a, b, 0);
    assert b[..9] == c[..9] && SplitsAt(b, c, 9);
    assert c[..0] == d[..0] && SplitsAt(c, d, 0);
  }

  lemma ItemKeysPlain()
    ensures PlainKey("content_hash") && PlainKey("document_id") && PlainKey("document_type") && PlainKey("version")
  {
  }

  /** A document's entry in the manifest, keys in order. */
  lemma ItemPrints(d: Document)
    ensures AuditText(ItemJson(d)) ==
            "{" + Fields([ ("content_hash", Quote(d.contentHash)), ("document_id", Quote(d.id)), ("document_type", Quote(d.documentType)),
                           ("version", Numeral(d.version)) ]) + "}"
  {
    hide ComesBefore, PlainKey, AuditText, Numeral, Fields, Quote;
    ItemKeysAscend();
    ItemKeysPlain();
    ScalarsPrint(Str(d.contentHash));
    ScalarsPrint(Str(d.id));
    ScalarsPrint(Str(d.documentType));
    ScalarsPrint(Num(Numeral(d.version)));
    var ms := ItemJson(d).members;
    var sorted := [ms[2], ms[0], ms[1], ms[3]];
    ObjectFields(ms, sorted, [ ("content_hash", Quote(d.contentHash)), ("document_id", Quote(d.id)), ("document_type", Quote(d.documentType)),
                               ("version", Numeral(d.version)) ]);
  }

  // ---------------------------------------------------------------------------
  // Which documents are hashed
  // ---------------------------------------------------------------------------

  /** A document of the draw that no document of the table supersedes. */
  ghost predicate Current(documents: seq<Document>, drawId: string, d: Document) {
    d in documents && d.drawId == drawId && forall n :: n in documents ==> n.supersedes != Some(d.id)
  }

  lemma {:induction false} HeadsCounted(table: seq<Document>, documents: seq<Document>, drawId: string, d: Document)
    ensures multiset(HeadsAmong(table, documents, drawId))[d]
         == if d.drawId == drawId && !Superseded(table, d.id) then multiset(documents)[d] else 0
  {
    if documents != [] {
      var front, last := documents[..|documents| - 1], documents[|documents| - 1];
      HeadsCounted(table, front, drawId, d);
      hide Superseded;
      assert documents == front + [last];
      var rest := HeadsAmong(table, front, drawId);
      if last.drawId == drawId && !Superseded(table, last.id) {
        assert HeadsAmong(table, documents, drawId) == rest + [last];
      } else {
        assert HeadsAmong(table, documents, drawId) == rest;
      }
      hide HeadsAmong;
    }
  }

  lemma SupersededMeans(documents: seq<Document>, id: string)
    ensures Superseded(documents, id) <==> exists n :: n in documents && n.supersedes == Some(id)
  {
    if n :| n in documents && n.supersedes == Some(id) {
      var i :| 0 <= i < |documents| && documents[i] == n;
    }
  }

  /** The current documents are those of the draw that nothing supersedes, each as often as it is listed, in ascending order of id. */
  lemma CurrentDocumentsAre(documents: seq<Document>, drawId: string, d: Document)
    ensures multiset(CurrentDocuments(documents, drawId))[d] == if Current(documents, drawId, d) then multiset(documents)[d] else 0
    ensures d in CurrentDocuments(documents, drawId) <==> Current(documents, drawId, d)
    ensures var r := CurrentDocuments(documents, drawId);
            forall i, j :: 0 <= i < j < |r| ==> !ComesBefore(r[j].id, r[i].id)
  {
    var heads := HeadsAmong(documents, documents, drawId);
    HeadsCounted(documents, documents, drawId, d);
    SupersededMeans(documents, d.id);
    SortBySorts(heads, DocumentId);
    var r := SortBy(heads, DocumentId);
    assert d in r <==> multiset(r)[d] > 0;
    assert d in documents <==> multiset(documents)[d] > 0;
    forall i, j | 0 <= i < j < |r| ensures !ComesBefore(r[j].id, r[i].id) {
      StringLessExactly(DocumentId(r[j]), DocumentId(r[i]));
    }
  }

  lemma {:induction false} IdsAre(documents: seq<Document>, i: nat)
    requires i < |documents|
    ensures Ids(documents)[i] == documents[i].id
  {
    if i > 0 { IdsAre(documents[1..], i - 1); }
  }

  // ---------------------------------------------------------------------------
  // What the hash commits to
  // ---------------------------------------------------------------------------

  predicate SameEvidence(d: Document, e: Document) {
    d.id == e.id && d.documentType == e.documentType && d.contentHash == e.contentHash && d.version == e.version
  }

  lemma {:induction false} ItemsAt(documents: seq<Document>, i: nat)
    requires i < |documents|
    ensures ItemsJson(documents)[i] == ItemJson(documents[i])
  {
    if i > 0 { ItemsAt(documents[1..], i - 1); }
  }

  lemma ItemKeysDiffer(d: Document)
    ensures DistinctKeys(ItemJson(d).members, MemberKey)
  {
    hide Numeral;
    var ms := ItemJson(d).members;
    assert |ms[0].key| == 11 && |ms[1].key| == 13 && |ms[2].key| == 12 && |ms[3].key| == 7;
  }

  lemma SameItem(d: Document, e: Document)
    requires Same(ItemJson(d), ItemJson(e))
    ensures SameEvidence(d, e)
  {
    ItemKeysDiffer(d);
    hide Numeral, DistinctKeys;
    var u, v := ItemJson(d).members, ItemJson(e).members;
    AlignedSame(u, v);
    assert Same(u[0].value, v[0].value) && Same(u[1].value, v[1].value) && Same(u[2].value, v[2].value) && Same(u[3].value, v[3].value);
    NumeralInjective(d.version, e.version);
  }

  /** With a collision-free hash, equal manifest hashes were made from the same documents: same ids, types, contents and versions, in order. */
  lemma ManifestCommits(cfg: Config, a: seq<Document>, b: seq<Document>)
    requires CollisionFree(cfg.sha) && ManifestHash(cfg, a) == ManifestHash(cfg, b)
    ensures |a| == |b| && forall i :: 0 <= i < |a| ==> SameEvidence(a[i], b[i])
  {
    var u, v := Arr(ItemsJson(a)), Arr(ItemsJson(b));
    DocumentItemsValid(a);
    ItemsValid(ItemsJson(a));
    DocumentItemsValid(b);
    ItemsValid(ItemsJson(b));
    SamePrefix("sha256:", cfg.sha(AuditText(u)), cfg.sha(AuditText(v)));
    TextIsUnambiguous(u, v);
    forall i | 0 <= i < |a| ensures SameEvidence(a[i], b[i]) {
      ItemsAt(a, i);
      ItemsAt(b, i);
      assert Same(u.items[i], v.items[i]);
      hide Same, SameEvidence, ItemJson;
      SameItem(a[i], b[i]);
    }
  }

  /** An evidence table, of whatever origin, that recomputes to the locked hash shows the evidence that was frozen. */
  lemma SwappedEvidenceShows(cfg: Config, s: State, id: string, documents: seq<Document>)
    requires CollisionFree(cfg.sha) && Reachable(cfg, s) && id in s.draws && !s.draws[id].status.Draft?
    requires s.draws[id].lockedManifestHash == Some(ManifestHash(cfg, CurrentDocuments(documents, id)))
    ensures forall d :: Current(documents, id, d) ==> exists e :: Current(s.documents, id, e) && SameEvidence(d, e)
    ensures forall e :: Current(s.documents, id, e) ==> exists d :: Current(documents, id, d) && SameEvidence(d, e)
  {
    hide Reachable, CollisionFree, ManifestHash, CurrentDocuments, Current, SameEvidence;
    ManifestRecomputes(cfg, s, id);
    var a, b := CurrentDocuments(documents, id), CurrentDocuments(s.documents, id);
    ManifestCommits(cfg, a, b);
    forall d | Current(documents, id, d) ensures exists e :: Current(s.documents, id, e) && SameEvidence(d, e) {
      CurrentDocumentsAre(documents, id, d);
      var i :| 0 <= i < |a| && a[i] == d;
      assert SameEvidence(a[i], b[i]) && b[i] in b;
      CurrentDocumentsAre(s.documents, id, b[i]);
    }
    forall e | Current(s.documents, id, e) ensures exists d :: Current(documents, id, d) && SameEvidence(d, e) {
      CurrentDocumentsAre(s.documents, id, e);
      var i :| 0 <= i < |b| && b[i] == e;
      assert SameEvidence(a[i], b[i]) && a[i] in a;
      CurrentDocumentsAre(documents, id, a[i]);
    }
  }
}
