/**
 The search index as a mirror of the tables (internal/ingest/service.go,
 indexmap.go). After each reconcile the removed keys are deleted from the index
 and the changed rows written to it; unchanged rows are not sent again.
*/
module SearchIndex {
  import opened Wrappers
  import opened Numbers
  import opened Reconcile

  datatype DocMeta = DocMeta(typ: string, title: string, status: string, author: string, created: string, path: string, sha: string)

  datatype PageMeta = PageMeta(repoPath: string, title: string, sha: string)

  datatype Rows = Rows(docs: map<string, Row<DocMeta>>, pages: map<string, Row<PageMeta>>)

  datatype Source = Doc | Page

  datatype IndexDoc = IndexDoc(
    id: string, source: Source, repo: string, repoID: nat, docID: string, typ: string, title: string,
    status: string, author: string, created: string, path: string, body: string, updatedAt: nat)

  /** A repository's id and label, and the hash of a page's path (16 hex digits of SHA-256). */
  datatype Repo = Repo(id: nat, name: string, pathHash: string -> string)

  // ---- keys ----

  function PrimaryKey(repoID: nat, docID: string): string {
    Decimal(repoID) + "_" + docID
  }

  function PagePrimaryKey(repo: Repo, path: string): string {
    Decimal(repo.id) + "_p_" + repo.pathHash(path)
  }

  lemma PageKeyIsPrimaryKey(repo: Repo, path: string)
    ensures PagePrimaryKey(repo, path) == PrimaryKey(repo.id, "p_" + repo.pathHash(path))
  {
  }

  /** The first "_" splits a key: equal keys have equal repositories and equal rests. */
  lemma KeySplits(a: nat, x: string, b: nat, y: string)
    requires PrimaryKey(a, x) == PrimaryKey(b, y)
    ensures a == b && x == y
  {
    var s, da, db := PrimaryKey(a, x), Decimal(a), Decimal(b);
    assert forall i | 0 <= i < |da| :: s[i] == da[i];
    assert forall i | 0 <= i < |db| :: s[i] == db[i];
    assert s[|da|] == '_' && s[|db|] == '_';
    assert da == s[..|da|] && db == s[..|db|];
    DecimalInjective(a, b);
    assert x == s[|da| + 1..] && y == s[|db| + 1..];
  }

  // ---- records ----

  function ToIndexDoc(repo: Repo, docID: string, row: Row<DocMeta>): IndexDoc {
    IndexDoc(PrimaryKey(repo.id, docID), Doc, repo.name, repo.id, docID, row.meta.typ, row.meta.title,
             row.meta.status, row.meta.author, row.meta.created, row.meta.path, row.content, row.at)
  }

  function ToIndexPage(repo: Repo, path: string, row: Row<PageMeta>): IndexDoc {
    IndexDoc(PagePrimaryKey(repo, path), Page, repo.name, repo.id, "", "", row.meta.title,
             "", "", "", path, row.content, row.at)
  }

  /** rec is the image of one of the repository's rows. */
  ghost predicate Image(repo: Repo, rows: Rows, rec: IndexDoc) {
    || (rec.docID in rows.docs && rec == ToIndexDoc(repo, rec.docID, rows.docs[rec.docID]))
    || (rec.path in rows.pages && rec == ToIndexPage(repo, rec.path, rows.pages[rec.path]))
  }

  /** The index holds, of this repository, exactly the images of its rows. */
  ghost predicate Mirrors(index: map<string, IndexDoc>, repo: Repo, rows: Rows) {
    forall rec: IndexDoc :: Image(repo, rows, rec) <==> rec.id in index && index[rec.id] == rec && rec.repoID == repo.id
  }

  /** Every record is under its own id, which starts with its repository's. */
  ghost predicate Keyed(index: map<string, IndexDoc>) {
    forall k | k in index :: index[k].id == k && exists rest :: k == PrimaryKey(index[k].repoID, rest)
  }

  // ---- the sync ----

  function DocKeys(repo: Repo, ids: seq<string>): seq<string> {
    seq(|ids|, i requires 0 <= i < |ids| => PrimaryKey(repo.id, ids[i]))
  }

  function PageKeys(repo: Repo, paths: seq<string>): seq<string> {
    seq(|paths|, i requires 0 <= i < |paths| => PagePrimaryKey(repo, paths[i]))
  }

  /** The rows behind the ids; one gone since is left out. */
  function DocRecords(repo: Repo, rows: Rows, ids: seq<string>): seq<IndexDoc> {
    if ids == [] then []
    else (if ids[0] in rows.docs then [ToIndexDoc(repo, ids[0], rows.docs[ids[0]])] else []) + DocRecords(repo, rows, ids[1..])
  }

  function PageRecords(repo: Repo, rows: Rows, paths: seq<string>): seq<IndexDoc> {
    if paths == [] then []
    else (if paths[0] in rows.pages then [ToIndexPage(repo, paths[0], rows.pages[paths[0]])] else []) + PageRecords(repo, rows, paths[1..])
  }

  /** IndexDocuments: each record replaces the one under its id. */
  function IndexAll(index: map<string, IndexDoc>, recs: seq<IndexDoc>): map<string, IndexDoc>
    decreases |recs|
  {
    if recs == [] then index else IndexAll(index[recs[0].id := recs[0]], recs[1..])
  }

  datatype Change = Change(upsertedDocs: seq<string>, deletedDocs: seq<string>, upsertedPages: seq<string>, deletedPages: seq<string>)

  function Synced(index: map<string, IndexDoc>, repo: Repo, rows: Rows, c: Change): map<string, IndexDoc> {
    var gone := DocKeys(repo, c.deletedDocs) + PageKeys(repo, c.deletedPages);
    IndexAll(index - (set k | k in gone), DocRecords(repo, rows, c.upsertedDocs) + PageRecords(repo, rows, c.upsertedPages))
  }

  class Indexer {
    var records: map<string, IndexDoc>

    constructor ()
      ensures records == map[]
    {
      records := map[];
    }

    method DeleteDocuments(ids: seq<string>)
      modifies this
      ensures records == old(records) - (set k | k in ids)
    {
      records := records - (set k | k in ids);
    }

    method IndexDocuments(recs: seq<IndexDoc>)
      modifies this
      ensures records == IndexAll(old(records), recs)
    {
      for i := 0 to |recs|
        invariant IndexAll(old(records), recs) == IndexAll(records, recs[i..])
      {
        assert recs[i..][0] == recs[i] && recs[i..][1..] == recs[i + 1..];
        records := records[recs[i].id := recs[i]];
      }
    }

    /** syncIndex: one delete call, one index call, each only when there is something to send. */
    method SyncIndex(repo: Repo, rows: Rows, c: Change)
      modifies this
      ensures records == Synced(old(records), repo, rows, c)
    {
      var ids: seq<string> := [];
      for i := 0 to |c.deletedDocs|
        invariant ids == DocKeys(repo, c.deletedDocs)[..i]
      {
        ids := ids + [PrimaryKey(repo.id, c.deletedDocs[i])];
      }
      ghost var docKeys := ids;
      for i := 0 to |c.deletedPages|
        invariant ids == docKeys + PageKeys(repo, c.deletedPages)[..i]
      {
        ids := ids + [PagePrimaryKey(repo, c.deletedPages[i])];
      }
      assert ids == DocKeys(repo, c.deletedDocs) + PageKeys(repo, c.deletedPages);
      if |ids| > 0 {
        DeleteDocuments(ids);
      } else {
        assert records - (set k | k in ids) == records;
      }
      var recs := UpsertedIndexRecords(repo, rows, c);
      if |recs| == 0 {
        return;
      }
      IndexDocuments(recs);
    }

    method UpsertedIndexRecords(repo: Repo, rows: Rows, c: Change) returns (recs: seq<IndexDoc>)
      ensures recs == DocRecords(repo, rows, c.upsertedDocs) + PageRecords(repo, rows, c.upsertedPages)
    {
      hide ToIndexDoc, ToIndexPage;
      recs := [];
      for i := 0 to |c.upsertedDocs|
        invariant recs + DocRecords(repo, rows, c.upsertedDocs[i..]) == DocRecords(repo, rows, c.upsertedDocs)
      {
        var ids := c.upsertedDocs[i..];
        assert ids[0] == c.upsertedDocs[i] && ids[1..] == c.upsertedDocs[i + 1..];
        if ids[0] in rows.docs {
          recs := recs + [ToIndexDoc(repo, ids[0], rows.docs[ids[0]])];
        }
      }
      ghost var docs := recs;
      assert docs == DocRecords(repo, rows, c.upsertedDocs);
      for i := 0 to |c.upsertedPages|
        invariant recs + PageRecords(repo, rows, c.upsertedPages[i..]) == docs + PageRecords(repo, rows, c.upsertedPages)
      {
        var paths := c.upsertedPages[i..];
        assert paths[0] == c.upsertedPages[i] && paths[1..] == c.upsertedPages[i + 1..];
        if paths[0] in rows.pages {
          recs := recs + [ToIndexPage(repo, paths[0], rows.pages[paths[0]])];
        }
      }
    }
  }

  // ---- what a sync leaves under an id ----

  lemma {:induction false} IndexAllAt(index: map<string, IndexDoc>, recs: seq<IndexDoc>, k: string)
    ensures var after := IndexAll(index, recs);
      if exists i :: 0 <= i < |recs| && recs[i].id == k then k in after && after[k].id == k && after[k] in recs
      else (k in after <==> k in index) && (k in index ==> after[k] == index[k])
    decreases |recs|
  {
    if recs != [] {
      var next, rest := index[recs[0].id := recs[0]], recs[1..];
      assert forall i | 0 <= i < |rest| :: rest[i] == recs[i + 1];
      IndexAllAt(next, rest, k);
      if exists i :: 0 <= i < |rest| && rest[i].id == k {
        var i :| 0 <= i < |rest| && rest[i].id == k;
        assert recs[i + 1].id == k;
      }
    }
  }

  lemma {:induction false} DocRecordsAre(repo: Repo, rows: Rows, ids: seq<string>, rec: IndexDoc)
    ensures rec in DocRecords(repo, rows, ids) <==>
      rec.docID in ids && rec.docID in rows.docs && rec == ToIndexDoc(repo, rec.docID, rows.docs[rec.docID])
  {
    if ids != [] {
      DocRecordsAre(repo, rows, ids[1..], rec);
    }
  }

  lemma {:induction false} PageRecordsAre(repo: Repo, rows: Rows, paths: seq<string>, rec: IndexDoc)
    ensures rec in PageRecords(repo, rows, paths) <==>
      rec.path in paths && rec.path in rows.pages && rec == ToIndexPage(repo, rec.path, rows.pages[rec.path])
  {
    if paths != [] {
      PageRecordsAre(repo, rows, paths[1..], rec);
    }
  }

  // ---- one reconcile and its sync ----

  /** docz ids never start with "p_", the mark of a page's key. */
  predicate DocIDsOk(rows: Rows) {
    forall id | id in rows.docs :: !("p_" <= id)
  }

  /** No two of these published paths have one hash. */
  ghost predicate HashOk(repo: Repo, paths: set<string>) {
    CollisionFree(repo.pathHash, paths)
  }

  /** A report's account of how a table changed. */
  ghost predicate Describes<M>(before: map<string, Row<M>>, after: map<string, Row<M>>, upserted: seq<string>, deleted: seq<string>) {
    && (forall k | k in after && k !in upserted :: k in before && after[k] == before[k])
    && (forall k | k in upserted :: k in after)
    && (forall k :: k in deleted <==> k in before && k !in after)
  }

  lemma ReconcileDescribes<M>(before: map<string, Row<M>>, desired: seq<Item<string, M>>, now: nat, deleted: seq<string>)
    requires Names(deleted, before.Keys - KeysOf(desired))
    ensures Describes(before, Reconciled(before, desired, now), ChangedKeys(before, desired), deleted)
  {
    ReconciledKeys(before, desired, now);
    forall k: string
      ensures k in ChangedKeys(before, desired) ==> k in Reconciled(before, desired, now)
      ensures k in Reconciled(before, desired, now) && k !in ChangedKeys(before, desired) ==>
        k in before && Reconciled(before, desired, now)[k] == before[k]
    {
      ReportsWhatChanged(before, desired, now, k);
    }
    forall k: string ensures k in deleted <==> k in before && k !in Reconciled(before, desired, now) {
      NamesMember(deleted, before.Keys - KeysOf(desired), k);
    }
  }

  ghost predicate Changes(before: Rows, after: Rows, c: Change) {
    && Describes(before.docs, after.docs, c.upsertedDocs, c.deletedDocs)
    && Describes(before.pages, after.pages, c.upsertedPages, c.deletedPages)
  }

  /** Images are told apart by their ids. */
  lemma ImagesByID(repo: Repo, a: Rows, b: Rows, x: IndexDoc, y: IndexDoc)
    requires HashOk(repo, a.pages.Keys + b.pages.Keys) && DocIDsOk(a) && DocIDsOk(b) && Image(repo, a, x) && Image(repo, b, y) && x.id == y.id
    ensures x.source == y.source && x.docID == y.docID && (x.source.Page? ==> x.path == y.path)
  {
    var kx := if x.source.Doc? then x.docID else "p_" + repo.pathHash(x.path);
    var ky := if y.source.Doc? then y.docID else "p_" + repo.pathHash(y.path);
    PageKeyIsPrimaryKey(repo, x.path);
    PageKeyIsPrimaryKey(repo, y.path);
    KeySplits(repo.id, kx, repo.id, ky);
    if x.source.Page? && y.source.Page? {
      assert repo.pathHash(x.path) == kx[2..] == ky[2..] == repo.pathHash(y.path);
    }
  }

  /** What is sent: the images of the changed rows. */
  ghost predicate Sent(repo: Repo, rows: Rows, c: Change, rec: IndexDoc) {
    Image(repo, rows, rec) && if rec.source.Doc? then rec.docID in c.upsertedDocs else rec.path in c.upsertedPages
  }

  function RecordsSent(repo: Repo, rows: Rows, c: Change): seq<IndexDoc> {
    DocRecords(repo, rows, c.upsertedDocs) + PageRecords(repo, rows, c.upsertedPages)
  }

  lemma SentAre(repo: Repo, rows: Rows, c: Change, rec: IndexDoc)
    ensures rec in RecordsSent(repo, rows, c) <==> Sent(repo, rows, c, rec)
  {
    DocRecordsAre(repo, rows, c.upsertedDocs, rec);
    PageRecordsAre(repo, rows, c.upsertedPages, rec);
  }

  function Gone(repo: Repo, c: Change): seq<string> {
    DocKeys(repo, c.deletedDocs) + PageKeys(repo, c.deletedPages)
  }

  /** An image's id is deleted exactly when its row was. */
  lemma GoneIs(repo: Repo, rows: Rows, c: Change, rec: IndexDoc)
    requires HashOk(repo, rows.pages.Keys) && DocIDsOk(rows) && Image(repo, rows, rec)
    requires (forall id | id in c.deletedDocs :: !("p_" <= id)) && (forall p | p in c.deletedPages :: p in rows.pages)
    ensures rec.id in Gone(repo, c) <==> if rec.source.Doc? then rec.docID in c.deletedDocs else rec.path in c.deletedPages
  {
    var ds, ps := DocKeys(repo, c.deletedDocs), PageKeys(repo, c.deletedPages);
    var rest := if rec.source.Doc? then rec.docID else "p_" + repo.pathHash(rec.path);
    PageKeyIsPrimaryKey(repo, rec.path);
    assert rec.id == PrimaryKey(repo.id, rest);
    forall i | 0 <= i < |ds| && ds[i] == rec.id ensures rec.source.Doc? && rec.docID == c.deletedDocs[i] {
      KeySplits(repo.id, c.deletedDocs[i], repo.id, rest);
      assert c.deletedDocs[i] in c.deletedDocs && (rec.source.Page? ==> "p_" <= rest);
    }
    forall i | 0 <= i < |ps| && ps[i] == rec.id ensures rec.source.Page? && rec.path == c.deletedPages[i] {
      PageKeyIsPrimaryKey(repo, c.deletedPages[i]);
      KeySplits(repo.id, "p_" + repo.pathHash(c.deletedPages[i]), repo.id, rest);
      if rec.source.Page? {
        assert repo.pathHash(rec.path) == rest[2..] == ("p_" + repo.pathHash(c.deletedPages[i]))[2..];
      }
    }
    if rec.source.Doc? && rec.docID in c.deletedDocs {
      var i :| 0 <= i < |c.deletedDocs| && c.deletedDocs[i] == rec.docID;
      assert ds[i] == rec.id;
    }
    if rec.source.Page? && rec.path in c.deletedPages {
      var i :| 0 <= i < |c.deletedPages| && c.deletedPages[i] == rec.path;
      assert ps[i] == rec.id;
    }
  }

  lemma SyncedAt(index: map<string, IndexDoc>, repo: Repo, rows: Rows, c: Change, k: string)
    ensures var after := Synced(index, repo, rows, c);
      if exists rec :: Sent(repo, rows, c, rec) && rec.id == k
      then k in after && after[k].id == k && Sent(repo, rows, c, after[k])
      else (k in after <==> k in index && k !in Gone(repo, c)) && (k in after ==> after[k] == index[k])
  {
    var recs := RecordsSent(repo, rows, c);
    var kept := index - (set x | x in Gone(repo, c));
    IndexAllAt(kept, recs, k);
    if exists rec :: Sent(repo, rows, c, rec) && rec.id == k {
      var rec :| Sent(repo, rows, c, rec) && rec.id == k;
      SentAre(repo, rows, c, rec);
      var i :| 0 <= i < |recs| && recs[i] == rec;
      assert recs[i].id == k;
      SentAre(repo, rows, c, Synced(index, repo, rows, c)[k]);
    } else {
      forall i | 0 <= i < |recs| ensures recs[i].id != k {
        assert recs[i] in recs;
        SentAre(repo, rows, c, recs[i]);
      }
    }
  }

  /** After the sync the index mirrors the new rows of the repository. */
  lemma SyncMirrors(index: map<string, IndexDoc>, repo: Repo, before: Rows, after: Rows, c: Change)
    requires HashOk(repo, before.pages.Keys + after.pages.Keys) && DocIDsOk(before) && DocIDsOk(after)
    requires Changes(before, after, c) && Mirrors(index, repo, before)
    ensures Mirrors(Synced(index, repo, after, c), repo, after)
  {
    var synced := Synced(index, repo, after, c);
    forall rec: IndexDoc
      ensures Image(repo, after, rec) <==> rec.id in synced && synced[rec.id] == rec && rec.repoID == repo.id
    {
      SyncedAt(index, repo, after, c, rec.id);
      if exists x :: Sent(repo, after, c, x) && x.id == rec.id {
        SentUnder(index, repo, after, c, rec);
      } else {
        KeptUnder(index, repo, before, after, c, rec);
      }
    }
  }

  lemma SentUnder(index: map<string, IndexDoc>, repo: Repo, after: Rows, c: Change, rec: IndexDoc)
    requires HashOk(repo, after.pages.Keys) && DocIDsOk(after)
    requires rec.id in Synced(index, repo, after, c)
    requires var found := Synced(index, repo, after, c)[rec.id]; found.id == rec.id && Sent(repo, after, c, found)
    ensures Image(repo, after, rec) <==> Synced(index, repo, after, c)[rec.id] == rec && rec.repoID == repo.id
  {
    if Image(repo, after, rec) {
      ImagesByID(repo, after, after, rec, Synced(index, repo, after, c)[rec.id]);
    }
  }

  lemma KeptUnder(index: map<string, IndexDoc>, repo: Repo, before: Rows, after: Rows, c: Change, rec: IndexDoc)
    requires HashOk(repo, before.pages.Keys + after.pages.Keys) && DocIDsOk(before) && DocIDsOk(after) && Changes(before, after, c) && Mirrors(index, repo, before)
    requires forall x :: Sent(repo, after, c, x) ==> x.id != rec.id
    ensures Image(repo, after, rec) <==> rec.id in index && rec.id !in Gone(repo, c) && index[rec.id] == rec && rec.repoID == repo.id
  {
    assert !Sent(repo, after, c, rec);
    forall id | id in c.deletedDocs ensures !("p_" <= id) {
      assert id in before.docs;
    }
    if Image(repo, after, rec) {
      assert Image(repo, before, rec);
      GoneIs(repo, before, c, rec);
    }
    if rec.id in index && rec.id !in Gone(repo, c) && index[rec.id] == rec && rec.repoID == repo.id {
      assert Image(repo, before, rec);
      GoneIs(repo, before, c, rec);
      if rec.source.Doc? {
        assert rec.docID in after.docs;
        var x := ToIndexDoc(repo, rec.docID, after.docs[rec.docID]);
        assert rec.docID in c.upsertedDocs ==> Sent(repo, after, c, x);
      } else {
        assert rec.path in after.pages;
        var x := ToIndexPage(repo, rec.path, after.pages[rec.path]);
        assert rec.path in c.upsertedPages ==> Sent(repo, after, c, x);
      }
    }
  }

  // ---- other repositories ----

  lemma SentIsOurs(repo: Repo, rows: Rows, c: Change, rec: IndexDoc, other: nat, rest: string)
    requires Sent(repo, rows, c, rec) && rec.id == PrimaryKey(other, rest)
    ensures other == repo.id
  {
    PageKeyIsPrimaryKey(repo, rec.path);
    KeySplits(repo.id, if rec.source.Doc? then rec.docID else "p_" + repo.pathHash(rec.path), other, rest);
  }

  lemma GoneIsOurs(repo: Repo, c: Change, other: nat, rest: string)
    requires PrimaryKey(other, rest) in Gone(repo, c)
    ensures other == repo.id
  {
    var ds, ps := DocKeys(repo, c.deletedDocs), PageKeys(repo, c.deletedPages);
    var i :| 0 <= i < |Gone(repo, c)| && Gone(repo, c)[i] == PrimaryKey(other, rest);
    if i < |ds| {
      KeySplits(repo.id, c.deletedDocs[i], other, rest);
    } else {
      PageKeyIsPrimaryKey(repo, c.deletedPages[i - |ds|]);
      KeySplits(repo.id, "p_" + repo.pathHash(c.deletedPages[i - |ds|]), other, rest);
    }
  }

  /** No record of another repository is added, removed or rewritten. */
  lemma OthersUntouched(index: map<string, IndexDoc>, repo: Repo, rows: Rows, c: Change)
    requires Keyed(index)
    ensures var synced := Synced(index, repo, rows, c);
      && Keyed(synced)
      && (forall k | k in index && index[k].repoID != repo.id :: k in synced && synced[k] == index[k])
      && (forall k | k in synced && synced[k].repoID != repo.id :: k in index && synced[k] == index[k])
  {
    var synced := Synced(index, repo, rows, c);
    forall k | k in synced ensures synced[k].id == k && exists rest :: k == PrimaryKey(synced[k].repoID, rest) {
      SyncedAt(index, repo, rows, c, k);
      if exists rec :: Sent(repo, rows, c, rec) && rec.id == k {
        PageKeyIsPrimaryKey(repo, synced[k].path);
      }
    }
    forall k | k in index && index[k].repoID != repo.id ensures k in synced && synced[k] == index[k] {
      var rest :| k == PrimaryKey(index[k].repoID, rest);
      OthersStay(index, repo, rows, c, index[k].repoID, rest);
    }
    forall k | k in synced && synced[k].repoID != repo.id ensures k in index && synced[k] == index[k] {
      SyncedAt(index, repo, rows, c, k);
    }
  }

  lemma OthersStay(index: map<string, IndexDoc>, repo: Repo, rows: Rows, c: Change, other: nat, rest: string)
    requires other != repo.id
    ensures var k := PrimaryKey(other, rest);
      var synced := Synced(index, repo, rows, c);
      (k in synced <==> k in index) && (k in index ==> synced[k] == index[k])
  {
    var k := PrimaryKey(other, rest);
    SyncedAt(index, repo, rows, c, k);
    forall rec | Sent(repo, rows, c, rec) ensures rec.id != k {
      if rec.id == k {
        SentIsOurs(repo, rows, c, rec, other, rest);
      }
    }
    if k in Gone(repo, c) {
      GoneIsOurs(repo, c, other, rest);
    }
  }

  lemma OthersStillMirrored(index: map<string, IndexDoc>, repo: Repo, rows: Rows, c: Change, other: Repo, theirs: Rows)
    requires Keyed(index) && other.id != repo.id && Mirrors(index, other, theirs)
    ensures Mirrors(Synced(index, repo, rows, c), other, theirs)
  {
    OthersUntouched(index, repo, rows, c);
    var synced := Synced(index, repo, rows, c);
    forall rec: IndexDoc
      ensures Image(other, theirs, rec) <==> rec.id in synced && synced[rec.id] == rec && rec.repoID == other.id
    {
      assert Image(other, theirs, rec) <==> rec.id in index && index[rec.id] == rec && rec.repoID == other.id;
    }
  }

  // ---- any sequence of ingests ----

  datatype World = World(tables: map<nat, Rows>, index: map<string, IndexDoc>)

  /** What is fixed for all repositories: their names and the path hash. */
  datatype Naming = Naming(name: nat -> string, pathHash: string -> string)

  datatype Run = Run(
    repoID: nat, docs: seq<Item<string, DocMeta>>, pages: seq<Item<string, PageMeta>>, now: nat,
    deletedDocs: seq<string>, deletedPages: seq<string>)

  function RepoOf(n: Naming, id: nat): Repo {
    Repo(id, n.name(id), n.pathHash)
  }

  function RowsOf(w: World, id: nat): Rows {
    if id in w.tables then w.tables[id] else Rows(map[], map[])
  }

  /** Paths told apart by their hashes, ids that are docz ids, and the deletions the reconcile reports, in its order. */
  ghost predicate RunOk(n: Naming, w: World, r: Run) {
    var before := RowsOf(w, r.repoID);
    && HashOk(RepoOf(n, r.repoID), before.pages.Keys + KeysOf(r.pages))
    && (forall i | 0 <= i < |r.docs| :: !("p_" <= r.docs[i].key))
    && Names(r.deletedDocs, before.docs.Keys - KeysOf(r.docs))
    && Names(r.deletedPages, before.pages.Keys - KeysOf(r.pages))
  }

  function After(w: World, r: Run): Rows {
    Rows(Reconciled(RowsOf(w, r.repoID).docs, r.docs, r.now), Reconciled(RowsOf(w, r.repoID).pages, r.pages, r.now))
  }

  function ChangeOf(w: World, r: Run): Change {
    Change(ChangedKeys(RowsOf(w, r.repoID).docs, r.docs), r.deletedDocs,
           ChangedKeys(RowsOf(w, r.repoID).pages, r.pages), r.deletedPages)
  }

  function Ingest(n: Naming, w: World, r: Run): World {
    World(w.tables[r.repoID := After(w, r)], Synced(w.index, RepoOf(n, r.repoID), After(w, r), ChangeOf(w, r)))
  }

  function IngestAll(n: Naming, w: World, runs: seq<Run>): World
    decreases |runs|
  {
    if runs == [] then w else IngestAll(n, Ingest(n, w, runs[0]), runs[1..])
  }

  ghost predicate RunsOk(n: Naming, w: World, runs: seq<Run>)
    decreases |runs|
  {
    runs == [] || (RunOk(n, w, runs[0]) && RunsOk(n, Ingest(n, w, runs[0]), runs[1..]))
  }

  ghost predicate InStep(n: Naming, w: World) {
    && Keyed(w.index)
    && (forall id :: DocIDsOk(RowsOf(w, id)) && Mirrors(w.index, RepoOf(n, id), RowsOf(w, id)))
  }

  lemma RunChanges(n: Naming, w: World, r: Run)
    requires RunOk(n, w, r)
    ensures Changes(RowsOf(w, r.repoID), After(w, r), ChangeOf(w, r)) && DocIDsOk(After(w, r))
    ensures HashOk(RepoOf(n, r.repoID), RowsOf(w, r.repoID).pages.Keys + After(w, r).pages.Keys)
  {
    var before := RowsOf(w, r.repoID);
    ReconcileDescribes(before.docs, r.docs, r.now, r.deletedDocs);
    ReconcileDescribes(before.pages, r.pages, r.now, r.deletedPages);
    ReconciledKeys(before.docs, r.docs, r.now);
    ReconciledKeys(before.pages, r.pages, r.now);
    hide Describes, Reconciled, ChangedKeys;
  }

  lemma IngestKeepsStep(n: Naming, w: World, r: Run)
    requires InStep(n, w) && RunOk(n, w, r)
    ensures InStep(n, Ingest(n, w, r))
    ensures forall k | k in w.index && w.index[k].repoID != r.repoID ::
      k in Ingest(n, w, r).index && Ingest(n, w, r).index[k] == w.index[k]
  {
    hide Describes, Image, Reconciled, ChangedKeys, Synced, Mirrors, Keyed, Changes, RunOk, DocIDsOk, HashOk;
    var repo, before, after, c, u := RepoOf(n, r.repoID), RowsOf(w, r.repoID), After(w, r), ChangeOf(w, r), Ingest(n, w, r);
    RunChanges(n, w, r);
    assert DocIDsOk(before) && Mirrors(w.index, repo, before);
    SyncMirrors(w.index, repo, before, after, c);
    OthersUntouched(w.index, repo, after, c);
    forall id ensures DocIDsOk(RowsOf(u, id)) && Mirrors(u.index, RepoOf(n, id), RowsOf(u, id)) {
      assert DocIDsOk(RowsOf(w, id)) && Mirrors(w.index, RepoOf(n, id), RowsOf(w, id));
      if id != r.repoID {
        OthersStillMirrored(w.index, repo, after, c, RepoOf(n, id), RowsOf(w, id));
      }
    }
  }

  /**
   From an index that mirrors the tables, any sequence of ingests of any
   repositories leaves one that does.
  */
  lemma {:induction false} IndexMirrorsTables(n: Naming, w: World, runs: seq<Run>)
    requires InStep(n, w) && RunsOk(n, w, runs)
    ensures InStep(n, IngestAll(n, w, runs))
    decreases |runs|
  {
    hide InStep, RunOk, Ingest;
    if runs != [] {
      IngestKeepsStep(n, w, runs[0]);
      IndexMirrorsTables(n, Ingest(n, w, runs[0]), runs[1..]);
    }
  }

  lemma EmptyInStep(n: Naming)
    ensures InStep(n, World(map[], map[]))
  {
  }
}
