/**
 What a search record says of its document or page
 (internal/ingest/indexmap.go, mapper.go, internal/store/reconcile.go). What it
 says of the content is the content's. What it says of the place may be older:
 a document that moves with its content unchanged is not written again.
*/
module IndexRecords {
  import opened Wrappers
  import opened Paths
  import opened Repo
  import opened Fetch
  import opened Pages
  import opened Ingest
  import opened Reconcile
  import opened Pipeline
  import opened TreePages
  import Index = SearchIndex

  // ---- the last segment of a path's text ----

  /** path.Base of a path's text. */
  function LastSegment(text: string): string {
    if text == "" || text[|text| - 1] == '/' then "" else LastSegment(text[..|text| - 1]) + [text[|text| - 1]]
  }

  lemma {:induction false} LastSegmentEnds(before: string, name: string)
    requires '/' !in name && (before == "" || before[|before| - 1] == '/')
    ensures LastSegment(before + name) == name
    decreases |name|
  {
    if name == "" {
      assert before + name == before;
    } else {
      var front, text := name[..|name| - 1], before + name;
      assert text[..|text| - 1] == before + front && text[|text| - 1] == name[|name| - 1];
      LastSegmentEnds(before, front);
    }
  }

  lemma LastSegmentIsBase(p: Path)
    requires Clean(p)
    ensures LastSegment(Text(p)) == Base(p)
  {
    if |p| == 1 {
      LastSegmentEnds("", p[0]);
      assert "" + p[0] == p[0];
    } else {
      TextSnoc(Dir(p), Base(p));
      assert p == Dir(p) + [Base(p)];
      LastSegmentEnds(Text(Dir(p)) + "/", Base(p));
    }
  }

  // ---- rows ----

  /** The row's columns are what its content's frontmatter says. */
  predicate DocRowOk(r: Readers, id: string, row: Row<Index.DocMeta>) {
    r.front(row.content) == Front(id, row.meta.title, row.meta.status, row.meta.author, row.meta.created)
  }

  /** The row's title is its content's, or made of its published path. */
  predicate PageRowOk(r: Readers, path: string, row: Row<Index.PageMeta>) {
    row.meta.title == r.title(row.content, LastSegment(path))
  }

  ghost predicate RowsDescribed(r: Readers, rows: Index.Rows) {
    && (forall id | id in rows.docs :: DocRowOk(r, id, rows.docs[id]))
    && (forall path | path in rows.pages :: PageRowOk(r, path, rows.pages[path]))
  }

  ghost predicate SiteDescribed(r: Readers, s: Site) {
    forall id | id in s.world.tables :: RowsDescribed(r, s.world.tables[id])
  }

  /** Every row afterwards is an item's, or was there. */
  lemma ReconciledRow<M>(rows: map<string, Row<M>>, desired: seq<Item<string, M>>, now: nat, k: string)
    requires k in Reconciled(rows, desired, now)
    ensures var after := Reconciled(rows, desired, now);
      (k in rows && after[k] == rows[k]) || exists i :: 0 <= i < |desired| && desired[i].key == k && after[k] == RowOf(desired[i], now)
  {
    ReconciledKeys(rows, desired, now);
    ReconciledAt(rows, desired, now, k);
  }

  lemma {:induction false} DocumentsAreRead(r: Readers, cfg: Config, blobs: seq<Blob>, d: Document)
    requires Documents(r, cfg, blobs).Some? && d in Documents(r, cfg, blobs).value
    ensures d.front == r.front(d.content)
  {
    if d in Documents(r, cfg, blobs[1..]).value {
      DocumentsAreRead(r, cfg, blobs[1..], d);
    }
  }

  lemma DocItemsDescribed(r: Readers, i: Ingestion, digest: string -> string, k: nat)
    requires InputOf(r, i).Some? && k < |InputOf(r, i).value.documents|
    ensures var item := DocItems(InputOf(r, i).value.documents, digest)[k]; DocRowOk(r, item.key, RowOf(item, i.now))
  {
    var snap := Fetched(r, i.head, i.branch, i.tree).value;
    DocumentsAreRead(r, r.parse(snap.config).value, snap.blobs, InputOf(r, i).value.documents[k]);
    hide Fetched, Documents, Build;
  }

  lemma PageItemsDescribed(r: Readers, i: Ingestion, digest: string -> string, k: nat)
    requires WellFormed(i.tree) && InputOf(r, i).Some? && k < |InputOf(r, i).value.pages|
    ensures var item := PageItems(InputOf(r, i).value.pages, digest)[k]; PageRowOk(r, item.key, RowOf(item, i.now))
  {
    var page := InputOf(r, i).value.pages[k];
    IngestedPage(r, i.head, i.branch, i.tree, page);
    LastSegmentIsBase(page.path);
  }

  /** A page's path is clean, and its title is its content's or made of that path. */
  lemma IngestedPage(r: Readers, head: string, branch: string, tree: seq<Entry>, page: Page)
    requires WellFormed(tree) && Ingested(r, head, branch, tree).Some? && page in Ingested(r, head, branch, tree).value.pages
    ensures Clean(page.path) && page.title == r.title(page.content, Base(page.path))
  {
    var blobs := Fetched(r, head, branch, tree).value.blobs;
    var cfg := r.parse(Fetched(r, head, branch, tree).value.config).value;
    forall b | b in blobs ensures Clean(b.path) {
      BlobsAreFiles(r, head, branch, tree, b);
      FindIffIn(tree, b.path, b.sha);
    }
    PagePathIsClean(r, cfg, blobs, page);
    var docs := DocsPages(r, cfg, ReadmeDirs(cfg, blobs), blobs);
    hide Fetched, Documents, WellFormed, ReadmeDirs;
    if page in docs {
      var b := DocsPageSource(r, cfg, ReadmeDirs(cfg, blobs), blobs, page);
    } else {
      ExtraPageSource(r, docs, blobs, cfg.additionalDocs, page);
    }
  }

  lemma StepDescribed(r: Readers, n: Index.Naming, digest: string -> string, s: Site, i: Ingestion)
    requires SiteDescribed(r, s) && WellFormed(i.tree)
    ensures SiteDescribed(r, Step(r, n, digest, s, i))
  {
    if InputOf(r, i).Some? {
      var input, before := InputOf(r, i).value, Index.RowsOf(s.world, i.repoID);
      var docs, pages := DocItems(input.documents, digest), PageItems(input.pages, digest);
      var after := Index.After(s.world, RunOf(i, input, digest));
      hide Reconciled, WellFormed, DocItems, PageItems, Ingested;
      forall id | id in after.docs ensures DocRowOk(r, id, after.docs[id]) {
        ReconciledRow(before.docs, docs, i.now, id);
        if !(id in before.docs && after.docs[id] == before.docs[id]) {
          var k :| 0 <= k < |docs| && docs[k].key == id && after.docs[id] == RowOf(docs[k], i.now);
          DocItemsAre(input.documents, digest);
          DocItemsDescribed(r, i, digest, k);
        }
      }
      forall path | path in after.pages ensures PageRowOk(r, path, after.pages[path]) {
        ReconciledRow(before.pages, pages, i.now, path);
        if !(path in before.pages && after.pages[path] == before.pages[path]) {
          var k :| 0 <= k < |pages| && pages[k].key == path && after.pages[path] == RowOf(pages[k], i.now);
          PageItemsAre(input.pages, digest);
          PageItemsDescribed(r, i, digest, k);
        }
      }
    }
  }

  lemma {:induction false} StepsDescribed(r: Readers, n: Index.Naming, digest: string -> string, s: Site, ingests: seq<Ingestion>)
    requires SiteDescribed(r, s) && IngestionsOk(r, n, digest, s, ingests)
    ensures SiteDescribed(r, Steps(r, n, digest, s, ingests))
    decreases |ingests|
  {
    hide SiteDescribed, Step, InputOf, WellFormed, Index.RunOk, HashesOk;
    if ingests != [] {
      StepDescribed(r, n, digest, s, ingests[0]);
      StepsDescribed(r, n, digest, Step(r, n, digest, s, ingests[0]), ingests[1..]);
    }
  }

  // ---- records ----

  /** What a record says is what its body says, under the repository's label. */
  ghost predicate Describes(r: Readers, n: Index.Naming, rec: Index.IndexDoc) {
    && rec.repo == n.name(rec.repoID)
    && match rec.source
       case Doc => r.front(rec.body) == Front(rec.docID, rec.title, rec.status, rec.author, rec.created)
       case Page =>
         && rec.title == r.title(rec.body, LastSegment(rec.path))
         && rec.docID == "" && rec.typ == "" && rec.status == "" && rec.author == "" && rec.created == ""
  }

  /**
   After any sequence of ingests, every record's id, title, status, author and
   date are those its own body gives.
  */
  lemma RecordsDescribeTheirBody(r: Readers, n: Index.Naming, digest: string -> string, ingests: seq<Ingestion>, k: string)
    requires IngestionsOk(r, n, digest, EMPTY, ingests)
    requires k in Steps(r, n, digest, EMPTY, ingests).world.index
    ensures Describes(r, n, Steps(r, n, digest, EMPTY, ingests).world.index[k])
  {
    hide IngestionsOk, Steps;
    Index.EmptyInStep(n);
    StepsKeep(r, n, digest, EMPTY, ingests);
    StepsDescribed(r, n, digest, EMPTY, ingests);
    var s := Steps(r, n, digest, EMPTY, ingests);
    var rec := s.world.index[k];
    var repo, rows := Index.RepoOf(n, rec.repoID), Index.RowsOf(s.world, rec.repoID);
    assert Index.Mirrors(s.world.index, repo, rows) && rec.id == k;
    assert Index.Image(repo, rows, rec);
  }

  // ---- documents that move ----

  /** Of a document's record: it is there exactly when its row is, and is the row's image. */
  lemma DocRecordIff(index: map<string, Index.IndexDoc>, repo: Index.Repo, rows: Index.Rows, id: string)
    requires Index.Mirrors(index, repo, rows) && Index.Keyed(index) && !("p_" <= id)
    ensures var key := Index.PrimaryKey(repo.id, id);
      && (key in index <==> id in rows.docs)
      && (id in rows.docs ==> index[key] == Index.ToIndexDoc(repo, id, rows.docs[id]))
  {
    var key := Index.PrimaryKey(repo.id, id);
    if id in rows.docs {
      assert Index.Image(repo, rows, Index.ToIndexDoc(repo, id, rows.docs[id]));
    }
    if key in index {
      var rec := index[key];
      var rest :| key == Index.PrimaryKey(rec.repoID, rest);
      Index.KeySplits(rec.repoID, rest, repo.id, id);
      assert Index.Image(repo, rows, rec);
      if rec.docID in rows.docs && rec == Index.ToIndexDoc(repo, rec.docID, rows.docs[rec.docID]) {
        Index.KeySplits(repo.id, rec.docID, repo.id, id);
      } else {
        Index.PageKeyIsPrimaryKey(repo, rec.path);
        Index.KeySplits(repo.id, "p_" + repo.pathHash(rec.path), repo.id, id);
      }
    }
  }

  /** The row a reconcile leaves for a document none other shares the id of. */
  lemma DocumentRow(
    rows: map<string, Row<Index.DocMeta>>, documents: seq<Document>, digest: string -> string, now: nat, d: Document)
    requires Fronted(documents) && d in documents && forall e | e in documents && e.front.id == d.front.id :: e == d
    requires RowsHashed(rows, digest) && CollisionFree(digest, Compared(rows, DocItems(documents, digest)))
    ensures var id, after := d.front.id, Reconciled(rows, DocItems(documents, digest), now);
      && id in after
      && after[id] ==
           if id in rows && rows[id].content == d.content then rows[id]
           else Row(digest(d.content), d.content,
                    Index.DocMeta(d.typ, d.front.title, d.front.status, d.front.author, d.front.created, Text(d.path), d.sha), now)
  {
    var items, id := DocItems(documents, digest), d.front.id;
    var k :| 0 <= k < |documents| && documents[k] == d;
    assert items[k].key == id && items[k].content == d.content && items[k].hash == digest(d.content);
    assert id in KeysOf(items);
    forall j | 0 <= j < |items| && items[j].key == id ensures items[j] == items[k] {
      assert documents[j] in documents && documents[j].front.id == id;
    }
    ReconciledAt(rows, items, now, id);
    ChangedKeysAre(rows, items, id);
    hide Reconciled, ChangedKeys, DocItems;
    if id in rows && digest(d.content) == rows[id].hash {
      assert d.content in Compared(rows, items) && rows[id].content in Compared(rows, items);
    }
  }

  /**
   The record of a document that no other shares the id of, after an ingest: the
   one there was if that has the document's content, and otherwise the document's.
   So it says where the document is exactly when the content changed or the
   record already said so: a document moved without a change keeps its old path
   and type in the index.
  */
  lemma RecordFollowsContent(
    r: Readers, n: Index.Naming, digest: string -> string, s: Site, i: Ingestion, d: Document)
    requires SiteOk(n, digest, s) && IngestionOk(r, n, digest, s, i) && InputOf(r, i).Some?
    requires var documents := InputOf(r, i).value.documents;
      d in documents && forall e | e in documents && e.front.id == d.front.id :: e == d
    ensures var index, key := Step(r, n, digest, s, i).world.index, Index.PrimaryKey(i.repoID, d.front.id);
      var kept := key in s.world.index && s.world.index[key].body == d.content;
      && key in index
      && index[key] ==
           (if kept then s.world.index[key]
            else Index.IndexDoc(key, Index.Doc, n.name(i.repoID), i.repoID, d.front.id, d.typ, d.front.title,
                                d.front.status, d.front.author, d.front.created, Text(d.path), d.content, i.now))
      && (index[key].path == Text(d.path) && index[key].typ == d.typ <==>
            kept ==> s.world.index[key].path == Text(d.path) && s.world.index[key].typ == d.typ)
  {
    hide Ingested, WellFormed, Reconciled, CollisionFree, Compared, Represents, DocItems, PageItems, Index.PrimaryKey, Index.Synced;
    StepKeeps(r, n, digest, s, i);
    var input, repo := InputOf(r, i).value, Index.RepoOf(n, i.repoID);
    var before, after := Index.RowsOf(s.world, i.repoID), Index.After(s.world, RunOf(i, input, digest));
    var t := Step(r, n, digest, s, i);
    assert Index.Mirrors(s.world.index, repo, before) && Index.Keyed(s.world.index);
    assert Index.RowsOf(t.world, i.repoID) == after;
    assert Index.Mirrors(t.world.index, repo, after) && Index.Keyed(t.world.index);
    NotPageID(r, n, digest, s, i, d);
    assert RowsHashed(before.docs, digest);
    DocumentRow(before.docs, input.documents, digest, i.now, d);
    hide Index.Mirrors, Index.Keyed, RowsHashed;
    DocRecordIff(s.world.index, repo, before, d.front.id);
    DocRecordIff(t.world.index, repo, after, d.front.id);
  }

  lemma NotPageID(r: Readers, n: Index.Naming, digest: string -> string, s: Site, i: Ingestion, d: Document)
    requires IngestionOk(r, n, digest, s, i) && InputOf(r, i).Some? && d in InputOf(r, i).value.documents
    ensures !("p_" <= d.front.id)
  {
    var documents := InputOf(r, i).value.documents;
    var k :| 0 <= k < |documents| && documents[k] == d;
    assert DocItems(documents, digest)[k].key == d.front.id;
    hide Ingested, WellFormed, HashesOk;
  }

  // ---- pages ----

  /** Of a page's record: it is there exactly when its row is, and is the row's image. */
  lemma PageRecordIff(index: map<string, Index.IndexDoc>, repo: Index.Repo, rows: Index.Rows, path: string)
    requires Index.Mirrors(index, repo, rows) && Index.Keyed(index) && Index.DocIDsOk(rows)
    requires Index.HashOk(repo, rows.pages.Keys + {path})
    ensures var key := Index.PagePrimaryKey(repo, path);
      && (key in index <==> path in rows.pages)
      && (path in rows.pages ==> index[key] == Index.ToIndexPage(repo, path, rows.pages[path]))
  {
    var key, id := Index.PagePrimaryKey(repo, path), "p_" + repo.pathHash(path);
    Index.PageKeyIsPrimaryKey(repo, path);
    if path in rows.pages {
      assert Index.Image(repo, rows, Index.ToIndexPage(repo, path, rows.pages[path]));
    }
    if key in index {
      var rec := index[key];
      var rest :| key == Index.PrimaryKey(rec.repoID, rest);
      Index.KeySplits(rec.repoID, rest, repo.id, id);
      assert Index.Image(repo, rows, rec);
      if rec.docID in rows.docs && rec == Index.ToIndexDoc(repo, rec.docID, rows.docs[rec.docID]) {
        Index.KeySplits(repo.id, rec.docID, repo.id, id);
      } else {
        Index.PageKeyIsPrimaryKey(repo, rec.path);
        Index.KeySplits(repo.id, "p_" + repo.pathHash(rec.path), repo.id, id);
        assert repo.pathHash(rec.path) == ("p_" + repo.pathHash(rec.path))[2..] == id[2..] == repo.pathHash(path);
      }
    }
  }

  lemma PageRow(rows: map<string, Row<Index.PageMeta>>, pages: seq<Page>, digest: string -> string, now: nat, page: Page)
    requires page in pages && OnePerKey(PageItems(pages, digest))
    requires RowsHashed(rows, digest) && CollisionFree(digest, Compared(rows, PageItems(pages, digest)))
    ensures var path, after := Text(page.path), Reconciled(rows, PageItems(pages, digest), now);
      && path in after
      && after[path] ==
           if path in rows && rows[path].content == page.content then rows[path]
           else Row(digest(page.content), page.content, Index.PageMeta(Text(page.repoPath), page.title, page.sha), now)
  {
    var items, path := PageItems(pages, digest), Text(page.path);
    var k :| 0 <= k < |pages| && pages[k] == page;
    assert items[k].key == path && items[k].content == page.content && items[k].hash == digest(page.content);
    assert path in KeysOf(items);
    assert forall j | 0 <= j < |items| && items[j].key == path :: items[j] == items[k];
    ReconciledAt(rows, items, now, path);
    ChangedKeysAre(rows, items, path);
    hide Reconciled, ChangedKeys, PageItems;
    if path in rows && digest(page.content) == rows[path].hash {
      assert page.content in Compared(rows, items) && rows[path].content in Compared(rows, items);
    }
  }

  /** The record of a page after an ingest: the one there was if that has the page's content, and otherwise the page's. */
  lemma PageRecordFollowsContent(
    r: Readers, n: Index.Naming, digest: string -> string, s: Site, i: Ingestion, page: Page)
    requires SiteOk(n, digest, s) && IngestionOk(r, n, digest, s, i) && InputOf(r, i).Some? && page in InputOf(r, i).value.pages
    ensures var index, path := Step(r, n, digest, s, i).world.index, Text(page.path);
      var key := Index.PagePrimaryKey(Index.RepoOf(n, i.repoID), path);
      && key in index
      && index[key] ==
           if key in s.world.index && s.world.index[key].body == page.content then s.world.index[key]
           else Index.IndexDoc(key, Index.Page, n.name(i.repoID), i.repoID, "", "", page.title, "", "", "", path, page.content, i.now)
  {
    hide Ingested, WellFormed, Reconciled, Represents, DocItems, PageItems, Index.PagePrimaryKey, Index.Synced, Compared;
    StepKeeps(r, n, digest, s, i);
    var input, repo, path := InputOf(r, i).value, Index.RepoOf(n, i.repoID), Text(page.path);
    var before, after := Index.RowsOf(s.world, i.repoID), Index.After(s.world, RunOf(i, input, digest));
    var t := Step(r, n, digest, s, i);
    assert Index.Mirrors(s.world.index, repo, before) && Index.Keyed(s.world.index) && Index.DocIDsOk(before);
    assert Index.RowsOf(t.world, i.repoID) == after;
    assert Index.Mirrors(t.world.index, repo, after) && Index.Keyed(t.world.index) && Index.DocIDsOk(after);
    IngestedPagesAreOnePerKey(r, i.head, i.branch, i.tree, digest);
    assert RowsHashed(before.pages, digest);
    PageRow(before.pages, input.pages, digest, i.now, page);
    ReconciledKeys(before.pages, PageItems(input.pages, digest), i.now);
    hide Index.Mirrors, Index.Keyed, RowsHashed, Index.DocIDsOk;
    assert path in after.pages.Keys;
    assert Index.HashOk(repo, before.pages.Keys + {path}) && Index.HashOk(repo, after.pages.Keys + {path});
    PageRecordIff(s.world.index, repo, before, path);
    PageRecordIff(t.world.index, repo, after, path);
  }

  // ---- and of the tree itself ----

  /**
   The documents and pages that the index holds, told from the tree: those of
   its files that its config makes documents or publishes, where it does.
  */
  lemma InTreeIsTheTree(
    r: Readers, i: Ingestion, cfg: Config, source: Index.Source, key: string, body: string)
    requires WellFormed(i.tree) && Configured(r, i.tree, cfg) && InputOf(r, i).Some?
    ensures InTree(InputOf(r, i).value, source, key, body) <==>
      match source
      case Doc => exists d :: DocumentIn(r, cfg, i.tree, d) && d.front.id == key && d.content == body
      case Page => exists page :: PageIn(r, cfg, i.tree, page) && Text(page.path) == key && page.content == body
  {
    hide Ingested, WellFormed, Configured, DocumentIn, PageIn;
    var input := InputOf(r, i).value;
    forall d ensures d in input.documents <==> DocumentIn(r, cfg, i.tree, d) {
      TreeDocumentsAreIngested(r, i.head, i.branch, i.tree, cfg, d);
    }
    forall page ensures page in input.pages <==> PageIn(r, cfg, i.tree, page) {
      TreePagesAreIngested(r, i.head, i.branch, i.tree, cfg, page);
    }
  }
}
