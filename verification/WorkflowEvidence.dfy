/** Evidence: contiguous versions, verification by somebody else, and a manifest that stays what it was frozen as. */
module WorkflowEvidence {
  import opened Sums
  import opened Ordering
  import opened CanonicalJson
  import opened Ledger
  import opened DrawMachine
  import opened Workflow
  import opened WorkflowChanges

  // ---------------------------------------------------------------------------
  // Versions
  // ---------------------------------------------------------------------------

  predicate OfType(d: Document, drawId: string, documentType: string) {
    d.drawId == drawId && d.documentType == documentType
  }

  /** The draw's documents of one type, in the order they were uploaded. */
  function Versions(documents: seq<Document>, drawId: string, documentType: string): seq<Document> {
    if documents == [] then []
    else Versions(Front(documents), drawId, documentType) + if OfType(Last(documents), drawId, documentType) then [Last(documents)] else []
  }

  predicate InSequence(versions: seq<Document>, k: nat)
    requires k < |versions|
  {
    versions[k].version == k + 1 && versions[k].supersedes == (if k == 0 then None else Some(versions[k - 1].id))
  }

  /** Versions 1, 2, 3, … each superseding the one before. */
  ghost predicate Contiguous(versions: seq<Document>) {
    forall k :: 0 <= k < |versions| ==> InSequence(versions, k)
  }

  ghost predicate DocumentsInv(documents: seq<Document>) {
    DistinctKeys(documents, DocumentId) && forall drawId, documentType :: Contiguous(Versions(documents, drawId, documentType))
  }

  lemma {:induction false} VersionsAre(documents: seq<Document>, drawId: string, documentType: string)
    ensures forall d :: d in Versions(documents, drawId, documentType) <==> d in documents && OfType(d, drawId, documentType)
  {
    if documents != [] {
      VersionsAre(Front(documents), drawId, documentType);
      assert documents == Front(documents) + [Last(documents)];
    }
  }

  lemma ContiguousPrefix(versions: seq<Document>, n: nat)
    requires Contiguous(versions) && n <= |versions|
    ensures Contiguous(versions[..n])
  {
    forall k | 0 <= k < n ensures InSequence(versions[..n], k) {
      assert InSequence(versions, k);
    }
  }

  lemma ContiguousExtends(versions: seq<Document>, d: Document)
    requires Contiguous(versions) && d.version == |versions| + 1
    requires d.supersedes == if versions == [] then None else Some(Last(versions).id)
    ensures Contiguous(versions + [d])
  {
    var longer := versions + [d];
    forall k | 0 <= k < |longer| ensures InSequence(longer, k) {
      if k < |versions| { assert InSequence(versions, k); }
    }
  }

  lemma {:induction false} LatestIsLastVersion(documents: seq<Document>, drawId: string, documentType: string)
    requires Contiguous(Versions(documents, drawId, documentType))
    ensures var versions := Versions(documents, drawId, documentType);
            Latest(documents, drawId, documentType) == if versions == [] then None else Some(Last(versions))
  {
    if documents != [] {
      var earlier := Versions(Front(documents), drawId, documentType);
      var versions := Versions(documents, drawId, documentType);
      assert versions[..|earlier|] == earlier;
      if versions != [] { assert InSequence(versions, |versions| - 1); }
      ContiguousPrefix(versions, |earlier|);
      if earlier != [] { assert InSequence(earlier, |earlier| - 1); }
      LatestIsLastVersion(Front(documents), drawId, documentType);
    }
  }

  lemma UploadKeepsVersions(documents: seq<Document>, d: Document, drawId: string, documentType: string)
    requires Contiguous(Versions(documents, drawId, documentType))
    requires var prior := Latest(documents, d.drawId, d.documentType);
             d.version == (if prior.Some? then prior.value.version + 1 else 1)
             && d.supersedes == (if prior.Some? then Some(prior.value.id) else None)
    ensures Contiguous(Versions(documents + [d], drawId, documentType))
  {
    assert Front(documents + [d]) == documents;
    if OfType(d, drawId, documentType) {
      var versions := Versions(documents, drawId, documentType);
      LatestIsLastVersion(documents, drawId, documentType);
      if versions != [] { assert InSequence(versions, |versions| - 1); }
      ContiguousExtends(versions, d);
      assert Versions(documents + [d], drawId, documentType) == versions + [d];
    } else {
      assert Versions(documents + [d], drawId, documentType) == Versions(documents, drawId, documentType);
    }
  }

  /** Exactly one document of each draw and type is not superseded: the one with the highest version. */
  lemma OnlyLatestUnsuperseded(documents: seq<Document>, d: Document)
    requires DocumentsInv(documents) && d in documents
    ensures !Superseded(documents, d.id) <==> Latest(documents, d.drawId, d.documentType) == Some(d)
  {
    var versions := Versions(documents, d.drawId, d.documentType);
    VersionsAre(documents, d.drawId, d.documentType);
    LatestIsLastVersion(documents, d.drawId, d.documentType);
    assert d in versions;
    var k :| 0 <= k < |versions| && versions[k] == d;
    if k + 1 < |versions| {
      assert InSequence(versions, k + 1) && versions[k + 1] in versions;
      SupersededBy(documents, versions[k + 1], d.id);
      VersionNumbersDiffer(versions, k, |versions| - 1);
    } else if Superseded(documents, d.id) {
      var i :| 0 <= i < |documents| && documents[i].supersedes == Some(d.id);
      SupersederFollows(documents, documents[i], d, versions);
    }
  }

  lemma SupersededBy(documents: seq<Document>, newer: Document, id: string)
    requires newer in documents && newer.supersedes == Some(id)
    ensures Superseded(documents, id)
  {
    var i :| 0 <= i < |documents| && documents[i] == newer;
  }

  lemma VersionNumbersDiffer(versions: seq<Document>, j: nat, k: nat)
    requires Contiguous(versions) && j < k < |versions|
    ensures versions[j] != versions[k]
  {
    assert InSequence(versions, j) && InSequence(versions, k);
  }

  lemma SameDocument(documents: seq<Document>, a: Document, b: Document)
    requires DistinctKeys(documents, DocumentId) && a in documents && b in documents && a.id == b.id
    ensures a == b
  {
    var i :| 0 <= i < |documents| && documents[i] == a;
    var j :| 0 <= j < |documents| && documents[j] == b;
    SameIndex(documents, DocumentId, i, j);
  }

  /** Whatever supersedes a document comes right after it among its versions. */
  lemma SupersederFollows(documents: seq<Document>, newer: Document, d: Document, versions: seq<Document>)
    requires DocumentsInv(documents) && newer in documents && d in documents && newer.supersedes == Some(d.id)
    requires versions == Versions(documents, d.drawId, d.documentType)
    ensures versions != [] && Last(versions) != d
  {
    var others := Versions(documents, newer.drawId, newer.documentType);
    VersionsAre(documents, newer.drawId, newer.documentType);
    assert newer in others;
    var j :| 0 <= j < |others| && others[j] == newer;
    assert Contiguous(others) && InSequence(others, j);
    assert others[j - 1] in others;
    SameDocument(documents, others[j - 1], d);
    VersionNumbersDiffer(others, j - 1, |others| - 1);
  }

  // ---------------------------------------------------------------------------
  // The frozen manifest
  // ---------------------------------------------------------------------------

  /** The manifest a submission would freeze now. */
  function FreezeOf(cfg: Config, documents: seq<Document>, drawId: string): Manifest {
    Manifest(Ids(CurrentDocuments(documents, drawId)), ManifestHash(cfg, CurrentDocuments(documents, drawId)))
  }

  /** Past DRAFT a draw has a known policy and exactly the manifest its evidence gives. */
  ghost predicate FrozenRight(cfg: Config, draws: map<string, DrawRequest>, documents: seq<Document>, manifests: map<string, Manifest>, id: string) {
    (id in manifests <==> id in draws && !draws[id].status.Draft?)
    && (id in manifests ==>
          manifests[id] == FreezeOf(cfg, documents, id)
          && draws[id].lockedManifestHash == Some(manifests[id].hash)
          && draws[id].lockedPolicyVersion.Some? && draws[id].lockedPolicyVersion.value in cfg.packs)
  }

  ghost predicate FrozenInv(cfg: Config, draws: map<string, DrawRequest>, documents: seq<Document>, manifests: map<string, Manifest>) {
    forall id :: FrozenRight(cfg, draws, documents, manifests, id)
  }

  // uploads to another draw leave the current documents of this one alone

  lemma UploadSupersedes(table: seq<Document>, d: Document, id: string)
    ensures Superseded(table + [d], id) <==> Superseded(table, id) || d.supersedes == Some(id)
  {
    if d.supersedes == Some(id) { assert (table + [d])[|table|] == d; }
    if Superseded(table, id) {
      var i :| 0 <= i < |table| && table[i].supersedes == Some(id);
      assert (table + [d])[i] == table[i];
    }
  }

  lemma {:induction false} UploadElsewhereKeepsHeads(table: seq<Document>, documents: seq<Document>, d: Document, drawId: string)
    requires forall i :: 0 <= i < |documents| && documents[i].drawId == drawId ==> d.supersedes != Some(documents[i].id)
    ensures HeadsAmong(table + [d], documents, drawId) == HeadsAmong(table, documents, drawId)
  {
    if documents != [] {
      UploadElsewhereKeepsHeads(table, documents[..|documents| - 1], d, drawId);
      UploadSupersedes(table, d, documents[|documents| - 1].id);
    }
  }

  lemma {:induction false} LatestIsStored(documents: seq<Document>, drawId: string, documentType: string)
    ensures var r := Latest(documents, drawId, documentType);
            r.Some? ==> r.value in documents && OfType(r.value, drawId, documentType)
  {
    if documents != [] {
      LatestIsStored(documents[..|documents| - 1], drawId, documentType);
      assert documents == documents[..|documents| - 1] + [documents[|documents| - 1]];
    }
  }

  lemma UploadElsewhereKeepsFreeze(cfg: Config, documents: seq<Document>, d: Document, drawId: string)
    requires DistinctKeys(documents, DocumentId) && d.drawId != drawId
    requires var prior := Latest(documents, d.drawId, d.documentType);
             d.supersedes == (if prior.Some? then Some(prior.value.id) else None)
    ensures FreezeOf(cfg, documents + [d], drawId) == FreezeOf(cfg, documents, drawId)
  {
    LatestIsStored(documents, d.drawId, d.documentType);
    forall i | 0 <= i < |documents| && documents[i].drawId == drawId ensures d.supersedes != Some(documents[i].id) {
      if d.supersedes == Some(documents[i].id) {
        SameDocument(documents, documents[i], Latest(documents, d.drawId, d.documentType).value);
      }
    }
    UploadElsewhereKeepsHeads(documents, documents, d, drawId);
    assert (documents + [d])[..|documents|] == documents;
    assert HeadsAmong(documents + [d], documents + [d], drawId) == HeadsAmong(documents, documents, drawId);
    hide HeadsAmong, ItemsJson, Ids;
  }

  // verifying a document leaves every manifest alone

  function Unverified(d: Document): Document { d.(verified := false) }

  function AllUnverified(documents: seq<Document>): (r: seq<Document>)
    ensures |r| == |documents| && forall i :: 0 <= i < |r| ==> r[i] == Unverified(documents[i])
  {
    if documents == [] then [] else [Unverified(documents[0])] + AllUnverified(documents[1..])
  }

  lemma UnverifiedSuperseded(documents: seq<Document>, id: string)
    ensures Superseded(AllUnverified(documents), id) <==> Superseded(documents, id)
  {
    var plain := AllUnverified(documents);
    assert forall i :: 0 <= i < |documents| ==> plain[i].supersedes == documents[i].supersedes;
  }

  lemma {:induction false} UnverifiedHeads(table: seq<Document>, documents: seq<Document>, drawId: string)
    ensures HeadsAmong(AllUnverified(table), AllUnverified(documents), drawId) == AllUnverified(HeadsAmong(table, documents, drawId))
  {
    if documents != [] {
      var front, plain := documents[..|documents| - 1], AllUnverified(documents);
      UnverifiedHeads(table, front, drawId);
      UnverifiedSuperseded(table, documents[|documents| - 1].id);
      assert plain[..|plain| - 1] == AllUnverified(front);
      var d := documents[|documents| - 1];
      assert AllUnverified(HeadsAmong(table, front, drawId) + [d]) == AllUnverified(HeadsAmong(table, front, drawId)) + [Unverified(d)];
      hide AllUnverified, Superseded;
    }
  }

  lemma {:induction false} UnverifiedInsert(d: Document, documents: seq<Document>)
    ensures Insert(Unverified(d), AllUnverified(documents), DocumentId) == AllUnverified(Insert(d, documents, DocumentId))
  {
    if documents != [] {
      UnverifiedInsert(d, documents[1..]);
      assert AllUnverified(documents)[1..] == AllUnverified(documents[1..]);
    }
  }

  lemma {:induction false} UnverifiedSort(documents: seq<Document>)
    ensures SortBy(AllUnverified(documents), DocumentId) == AllUnverified(SortBy(documents, DocumentId))
  {
    if documents != [] {
      UnverifiedSort(documents[1..]);
      UnverifiedInsert(documents[0], SortBy(documents[1..], DocumentId));
      assert AllUnverified(documents)[1..] == AllUnverified(documents[1..]);
    }
  }

  lemma {:induction false} UnverifiedItems(documents: seq<Document>)
    ensures ItemsJson(AllUnverified(documents)) == ItemsJson(documents) && Ids(AllUnverified(documents)) == Ids(documents)
  {
    if documents != [] {
      UnverifiedItems(documents[1..]);
      assert AllUnverified(documents)[1..] == AllUnverified(documents[1..]);
    }
  }

  /** What is frozen does not depend on which documents are verified. */
  lemma FreezeIgnoresVerification(cfg: Config, documents: seq<Document>, drawId: string)
    ensures FreezeOf(cfg, AllUnverified(documents), drawId) == FreezeOf(cfg, documents, drawId)
  {
    UnverifiedHeads(documents, documents, drawId);
    UnverifiedSort(HeadsAmong(documents, documents, drawId));
    UnverifiedItems(CurrentDocuments(documents, drawId));
  }

  lemma {:induction false} UnverifiedVersions(documents: seq<Document>, drawId: string, documentType: string)
    ensures Versions(AllUnverified(documents), drawId, documentType) == AllUnverified(Versions(documents, drawId, documentType))
  {
    if documents != [] {
      UnverifiedVersions(Front(documents), drawId, documentType);
      assert Front(AllUnverified(documents)) == AllUnverified(Front(documents));
    }
  }

  /** Tables that differ only in what is verified have the same versions. */
  lemma VerificationKeepsDocuments(a: seq<Document>, b: seq<Document>)
    requires AllUnverified(a) == AllUnverified(b) && DocumentsInv(a)
    ensures DocumentsInv(b)
  {
    forall i | 0 <= i < |a| ensures a[i].id == b[i].id {
      assert AllUnverified(a)[i].id == AllUnverified(b)[i].id;
    }
    assert DistinctKeys(b, DocumentId) by {
      assert forall i :: 0 <= i < |b| ==> DocumentId(b[i]) == DocumentId(a[i]);
    }
    forall drawId, documentType ensures Contiguous(Versions(b, drawId, documentType)) {
      UnverifiedVersions(a, drawId, documentType);
      UnverifiedVersions(b, drawId, documentType);
      ContiguousUnverified(Versions(a, drawId, documentType), Versions(b, drawId, documentType));
    }
  }

  lemma ContiguousUnverified(u: seq<Document>, v: seq<Document>)
    requires AllUnverified(u) == AllUnverified(v) && Contiguous(u)
    ensures Contiguous(v)
  {
    assert |AllUnverified(u)| == |AllUnverified(v)|;
    forall k | 0 <= k < |v| ensures InSequence(v, k) {
      assert AllUnverified(u)[k] == AllUnverified(v)[k] && InSequence(u, k);
      if k > 0 { assert AllUnverified(u)[k - 1] == AllUnverified(v)[k - 1]; }
    }
  }

  // ---------------------------------------------------------------------------
  // The invariant
  // ---------------------------------------------------------------------------

  ghost predicate WasVerified(rows: seq<Row>, d: Document) {
    exists j :: 0 <= j < |rows| && VerificationOf(rows[j], d)
  }

  /** Behind every verified document there is a logged verification by someone other than its uploader. */
  ghost predicate VerifiedInv(rows: seq<Row>, documents: seq<Document>) {
    forall i :: 0 <= i < |documents| && documents[i].verified ==> WasVerified(rows, documents[i])
  }

  ghost predicate EvidenceInv(cfg: Config, s: State) {
    DocumentsInv(s.documents) && VerifiedInv(s.chain.rows, s.documents)
    && FrozenInv(cfg, s.draws, s.documents, s.manifests)
  }

  lemma VerifiedLater(rows: seq<Row>, later: seq<Row>, d: Document)
    requires WasVerified(rows, d) && |rows| <= |later| && rows == later[..|rows|]
    ensures WasVerified(later, d)
  {
    hide VerificationOf;
    var j :| 0 <= j < |rows| && VerificationOf(rows[j], d);
    assert later[j] == rows[j];
  }

  lemma VerifiedGrows(rows: seq<Row>, later: seq<Row>, documents: seq<Document>)
    requires VerifiedInv(rows, documents) && |rows| <= |later| && rows == later[..|rows|]
    ensures VerifiedInv(later, documents)
  {
    hide WasVerified;
    forall i | 0 <= i < |documents| && documents[i].verified ensures WasVerified(later, documents[i]) {
      VerifiedLater(rows, later, documents[i]);
    }
  }

  /** A saved row that stays past DRAFT and keeps its locks. */
  lemma SaveKeepsFrozen(cfg: Config, draws: map<string, DrawRequest>, documents: seq<Document>, manifests: map<string, Manifest>, next: DrawRequest)
    requires FrozenInv(cfg, draws, documents, manifests) && next.id in draws && !draws[next.id].status.Draft? && !next.status.Draft?
    requires next.lockedManifestHash == draws[next.id].lockedManifestHash && next.lockedPolicyVersion == draws[next.id].lockedPolicyVersion
    ensures FrozenInv(cfg, draws[next.id := next], documents, manifests)
  {
    hide FreezeOf;
    var now := draws[next.id := next];
    forall id ensures FrozenRight(cfg, now, documents, manifests, id) {
      assert FrozenRight(cfg, draws, documents, manifests, id);
    }
  }

  // ---------------------------------------------------------------------------
  // Every change keeps it
  // ---------------------------------------------------------------------------

  /** The chain only grew. */
  ghost predicate Grown(before: Chain, after: Chain) {
    |before.rows| <= |after.rows| && before.rows == after.rows[..|before.rows|]
  }

  /** A change that leaves draws, documents and manifests alone. */
  lemma LogOnlyKeepsEvidence(cfg: Config, s: State, t: State)
    requires EvidenceInv(cfg, s) && Grown(s.chain, t.chain)
    requires t.draws == s.draws && t.documents == s.documents && t.manifests == s.manifests
    ensures EvidenceInv(cfg, t)
  {
    hide DocumentsInv, FrozenInv, VerifiedInv;
    VerifiedGrows(s.chain.rows, t.chain.rows, s.documents);
  }

  /** A change that saves one draw past DRAFT with its locks kept. */
  lemma SaveKeepsEvidence(cfg: Config, s: State, t: State, next: DrawRequest)
    requires EvidenceInv(cfg, s) && Grown(s.chain, t.chain)
    requires t.draws == s.draws[next.id := next] && t.documents == s.documents && t.manifests == s.manifests
    requires next.id in s.draws && !s.draws[next.id].status.Draft? && !next.status.Draft?
    requires next.lockedManifestHash == s.draws[next.id].lockedManifestHash && next.lockedPolicyVersion == s.draws[next.id].lockedPolicyVersion
    ensures EvidenceInv(cfg, t)
  {
    hide DocumentsInv, FrozenInv, VerifiedInv;
    VerifiedGrows(s.chain.rows, t.chain.rows, s.documents);
    SaveKeepsFrozen(cfg, s.draws, s.documents, s.manifests, next);
  }

  lemma CreateKeepsEvidence(cfg: Config, s: State, t: State, env: Env, subject: string, input: DraftInput)
    requires EvidenceInv(cfg, s) && CreateChange(cfg, s, t, env, subject, input)
    ensures EvidenceInv(cfg, t)
  {
    hide DocumentsInv, VerifiedInv, FreezeOf, Sound, DrawWithKey, ParseMinor, RowChecks, NumberTaken;
    VerifiedGrows(s.chain.rows, t.chain.rows, s.documents);
    forall id ensures FrozenRight(cfg, t.draws, t.documents, t.manifests, id) {
      assert FrozenRight(cfg, s.draws, s.documents, s.manifests, id);
    }
  }

  lemma UploadKeepsEvidence(cfg: Config, s: State, t: State, env: Env, subject: string, input: UploadInput)
    requires EvidenceInv(cfg, s) && UploadChange(cfg, s, t, env, subject, input) && Keyed(s.draws)
    ensures EvidenceInv(cfg, t)
  {
    var d := NewDocument(cfg, s, env, subject, s.draws[input.drawId], input);
    UploadedLooks(cfg, s, env, subject, s.draws[input.drawId], input);
    hide NewDocument, Sound, KeyUsed, Latest;
    UploadKeepsDocuments(s.documents, d);
    hide DocumentsInv;
    VerifiedGrows(s.chain.rows, t.chain.rows, s.documents);
    UploadKeepsVerified(t.chain.rows, s.documents, d);
    hide VerifiedInv;
    forall id ensures FrozenRight(cfg, t.draws, t.documents, t.manifests, id) {
      assert FrozenRight(cfg, s.draws, s.documents, s.manifests, id);
      if id in s.manifests {
        DistinctDocuments(s.documents);
        UploadElsewhereKeepsFreeze(cfg, s.documents, d, id);
      }
    }
  }

  lemma DistinctDocuments(documents: seq<Document>)
    requires DocumentsInv(documents)
    ensures DistinctKeys(documents, DocumentId)
  {
  }

  lemma UploadedLooks(cfg: Config, s: State, env: Env, subject: string, draw: DrawRequest, input: UploadInput)
    ensures var d := NewDocument(cfg, s, env, subject, draw, input);
            var prior := Latest(s.documents, d.drawId, d.documentType);
            d.drawId == draw.id && !d.verified
            && d.version == (if prior.Some? then prior.value.version + 1 else 1)
            && d.supersedes == (if prior.Some? then Some(prior.value.id) else None)
  {
    hide Latest, Digest;
  }

  lemma UploadKeepsVerified(rows: seq<Row>, documents: seq<Document>, d: Document)
    requires VerifiedInv(rows, documents) && !d.verified
    ensures VerifiedInv(rows, documents + [d])
  {
    hide WasVerified;
  }

  lemma UploadKeepsDocuments(documents: seq<Document>, d: Document)
    requires DocumentsInv(documents) && !DocumentExists(documents, d.id)
    requires var prior := Latest(documents, d.drawId, d.documentType);
             d.version == (if prior.Some? then prior.value.version + 1 else 1)
             && d.supersedes == (if prior.Some? then Some(prior.value.id) else None)
    ensures DocumentsInv(documents + [d])
  {
    hide Latest, Contiguous, Versions;
    forall drawId, documentType ensures Contiguous(Versions(documents + [d], drawId, documentType)) {
      UploadKeepsVersions(documents, d, drawId, documentType);
    }
  }

  lemma VerifyKeepsEvidence(cfg: Config, s: State, t: State, subject: string, documentId: string, key: string)
    requires EvidenceInv(cfg, s) && VerifyChange(cfg, s, t, subject, documentId, key)
    ensures EvidenceInv(cfg, t)
  {
    var i := FindDocument(s.documents, documentId).value;
    hide FindDocument, Sound, KeyUsed, VerificationOf;
    assert AllUnverified(t.documents) == AllUnverified(s.documents);
    VerificationKeepsDocuments(s.documents, t.documents);
    hide DocumentsInv;
    VerifiedGrows(s.chain.rows, t.chain.rows, s.documents);
    forall k | 0 <= k < |t.documents| && t.documents[k].verified ensures WasVerified(t.chain.rows, t.documents[k]) {
      if k == i {
        VerificationStays(t.chain.rows, |s.chain.rows|, s.documents[i]);
      }
    }
    forall id ensures FrozenRight(cfg, t.draws, t.documents, t.manifests, id) {
      assert FrozenRight(cfg, s.draws, s.documents, s.manifests, id);
      FreezeIgnoresVerification(cfg, s.documents, id);
      FreezeIgnoresVerification(cfg, t.documents, id);
    }
  }

  lemma VerificationStays(rows: seq<Row>, j: nat, d: Document)
    requires j < |rows| && VerificationOf(rows[j], d)
    ensures WasVerified(rows, d.(verified := true))
  {
    hide AuditText, Parse;
    assert VerificationOf(rows[j], d.(verified := true));
  }

  lemma SubmitKeepsEvidence(cfg: Config, s: State, t: State, env: Env, subject: string, drawId: string, key: string)
    requires EvidenceInv(cfg, s) && SubmitChange(cfg, s, t, env, subject, drawId, key)
    ensures EvidenceInv(cfg, t)
  {
    hide DocumentsInv, VerifiedInv, Sound, KeyUsed, CurrentDocuments, ManifestHash, Ids, RowChecks, StatusName;
    VerifiedGrows(s.chain.rows, t.chain.rows, s.documents);
    forall id ensures FrozenRight(cfg, t.draws, t.documents, t.manifests, id) {
      assert FrozenRight(cfg, s.draws, s.documents, s.manifests, id);
    }
  }
}
