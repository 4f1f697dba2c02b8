/**
 From git trees to the search index: what the classifier returns is what the
 reconcile asks for, and over any sequence of ingests the index holds what the
 last tree of each repository has.
*/
module Pipeline {
  import opened Wrappers
  import opened Paths
  import opened Repo
  import opened Fetch
  import opened Pages
  import opened Ingest
  import opened Reconcile
  import Index = SearchIndex

  /** The rows reconcileRepoPages is given. */
  function PageItems(pages: seq<Page>, digest: string -> string): seq<Item<string, Index.PageMeta>> {
    seq(|pages|, i requires 0 <= i < |pages| =>
      Item(Text(pages[i].path), digest(pages[i].content), pages[i].content,
           Index.PageMeta(Text(pages[i].repoPath), pages[i].title, pages[i].sha)))
  }

  predicate Fronted(documents: seq<Document>) {
    forall i | 0 <= i < |documents| :: documents[i].front.Front?
  }

  /** The rows reconcileDocuments is given. */
  function DocItems(documents: seq<Document>, digest: string -> string): seq<Item<string, Index.DocMeta>>
    requires Fronted(documents)
  {
    seq(|documents|, i requires 0 <= i < |documents| =>
      var d := documents[i];
      Item(d.front.id, digest(d.content), d.content,
           Index.DocMeta(d.typ, d.front.title, d.front.status, d.front.author, d.front.created, Text(d.path), d.sha)))
  }

  lemma {:induction false} DocumentsAreFronted(r: Readers, cfg: Config, blobs: seq<Blob>)
    requires Documents(r, cfg, blobs).Some?
    ensures Fronted(Documents(r, cfg, blobs).value)
  {
    if blobs != [] {
      DocumentsAreFronted(r, cfg, blobs[1..]);
    }
  }

  lemma IngestedIsFronted(r: Readers, head: string, branch: string, tree: seq<Entry>)
    requires Ingested(r, head, branch, tree).Some?
    ensures Fronted(Ingested(r, head, branch, tree).value.documents)
  {
    var snap := Fetched(r, head, branch, tree).value;
    DocumentsAreFronted(r, r.parse(snap.config).value, snap.blobs);
  }

  lemma CleanPart(p: Path, i: nat, j: nat)
    requires Clean(p) && i < j <= |p|
    ensures Clean(p[i..j])
  {
    forall k | 0 <= k < |p[i..j]| ensures Segment(p[i..j][k]) {
      assert p[i..j][k] == p[i + k];
    }
  }

  lemma PublishedIsClean(cfg: Config, readmes: set<Path>, p: Path)
    requires Clean(p) && Published(cfg, readmes, p).Some?
    ensures Clean(Published(cfg, readmes, p).value)
  {
    CleanPart(p, |cfg.dir|, |p|);
    var rel := Rel(p, cfg.dir);
    assert p[|cfg.dir|..|p|] == rel;
    if |rel| > 1 {
      CleanPart(rel, 0, |rel| - 1);
      assert rel[0..|rel| - 1] == Dir(rel);
    }
  }

  lemma PagePathIsClean(r: Readers, cfg: Config, blobs: seq<Blob>, page: Page)
    requires page in Build(r, cfg, blobs) && forall b | b in blobs :: Clean(b.path)
    ensures Clean(page.path)
  {
    var readmes := ReadmeDirs(cfg, blobs);
    var docs := DocsPages(r, cfg, readmes, blobs);
    if page in docs {
      var b := DocsPageSource(r, cfg, readmes, blobs, page);
      PublishedIsClean(cfg, readmes, b.path);
    } else {
      ExtraPageSource(r, docs, blobs, cfg.additionalDocs, page);
      BlobAtIsIn(blobs, page.path);
    }
  }

  /**
   Of any well-formed tree and any config, the page rows handed to the
   reconcile name each published path once, as its guarantees require.
  */
  lemma IngestedPagesAreOnePerKey(r: Readers, head: string, branch: string, tree: seq<Entry>, digest: string -> string)
    requires WellFormed(tree) && Ingested(r, head, branch, tree).Some?
    ensures OnePerKey(PageItems(Ingested(r, head, branch, tree).value.pages, digest))
  {
    IngestedPagesAreFunctional(r, head, branch, tree);
    var pages := Ingested(r, head, branch, tree).value.pages;
    var blobs := Fetched(r, head, branch, tree).value.blobs;
    forall b | b in blobs ensures Clean(b.path) {
      BlobsAreFiles(r, head, branch, tree, b);
      FindIffIn(tree, b.path, b.sha);
    }
    var cfg := r.parse(Fetched(r, head, branch, tree).value.config).value;
    assert pages == Build(r, cfg, blobs);
    hide Ingested, Fetched, Build, WellFormed;
    forall i, j | 0 <= i < |pages| && 0 <= j < |pages| && Text(pages[i].path) == Text(pages[j].path)
      ensures pages[i] == pages[j]
    {
      PagePathIsClean(r, cfg, blobs, pages[i]);
      PagePathIsClean(r, cfg, blobs, pages[j]);
      TextInjective(pages[i].path, pages[j].path);
    }
  }

  // ---- any sequence of ingests ----

  /** One ingest: the repository at HEAD, the clock, and the deletions the reconcile reports, in its order. */
  datatype Ingestion = Ingestion(
    repoID: nat, head: string, branch: string, tree: seq<Entry>, now: nat, deletedDocs: seq<string>, deletedPages: seq<string>)

  /** The tables and the index, and of each repository what was last ingested. */
  datatype Site = Site(world: Index.World, inputs: map<nat, Input>)

  const EMPTY := Site(Index.World(map[], map[]), map[])

  function InputOf(r: Readers, i: Ingestion): (input: Option<Input>)
    ensures input.Some? ==> Fronted(input.value.documents)
  {
    var input := Ingested(r, i.head, i.branch, i.tree);
    if input.Some? then
      IngestedIsFronted(r, i.head, i.branch, i.tree);
      input
    else None
  }

  function RunOf(i: Ingestion, input: Input, digest: string -> string): Index.Run
    requires Fronted(input.documents)
  {
    Index.Run(i.repoID, DocItems(input.documents, digest), PageItems(input.pages, digest), i.now, i.deletedDocs, i.deletedPages)
  }

  /** An ingest that fails before the reconcile changes nothing. */
  function Step(r: Readers, n: Index.Naming, digest: string -> string, s: Site, i: Ingestion): Site {
    match InputOf(r, i)
    case None => s
    case Some(input) => Site(Index.Ingest(n, s.world, RunOf(i, input, digest)), s.inputs[i.repoID := input])
  }

  function Steps(r: Readers, n: Index.Naming, digest: string -> string, s: Site, ingests: seq<Ingestion>): Site
    decreases |ingests|
  {
    if ingests == [] then s else Steps(r, n, digest, Step(r, n, digest, s, ingests[0]), ingests[1..])
  }

  /** Documents that share an id share their content. */
  ghost predicate OneContentPerID(documents: seq<Document>)
    requires Fronted(documents)
  {
    forall d, e | d in documents && e in documents && d.front.id == e.front.id :: d.content == e.content
  }

  /** Hashes tell apart the contents the reconcile compares. */
  ghost predicate HashesOk(before: Index.Rows, run: Index.Run, digest: string -> string) {
    CollisionFree(digest, Compared(before.docs, run.docs)) && CollisionFree(digest, Compared(before.pages, run.pages))
  }

  ghost predicate IngestionOk(r: Readers, n: Index.Naming, digest: string -> string, s: Site, i: Ingestion) {
    && WellFormed(i.tree)
    && (InputOf(r, i).Some? ==>
          var run := RunOf(i, InputOf(r, i).value, digest);
          Index.RunOk(n, s.world, run) && HashesOk(Index.RowsOf(s.world, i.repoID), run, digest))
  }

  ghost predicate IngestionsOk(r: Readers, n: Index.Naming, digest: string -> string, s: Site, ingests: seq<Ingestion>)
    decreases |ingests|
  {
    ingests == [] || (IngestionOk(r, n, digest, s, ingests[0]) && IngestionsOk(r, n, digest, Step(r, n, digest, s, ingests[0]), ingests[1..]))
  }

  ghost predicate TableOk<M>(rows: map<string, Row<M>>, desired: seq<Item<string, M>>, digest: string -> string) {
    Represents(rows, desired) && RowsHashed(rows, digest)
  }

  ghost predicate RowsOk(rows: Index.Rows, input: Input, digest: string -> string) {
    && Fronted(input.documents)
    && TableOk(rows.docs, DocItems(input.documents, digest), digest)
    && TableOk(rows.pages, PageItems(input.pages, digest), digest)
    && OnePerKey(PageItems(input.pages, digest))
  }

  ghost predicate SiteOk(n: Index.Naming, digest: string -> string, s: Site) {
    && Index.InStep(n, s.world)
    && s.world.tables.Keys == s.inputs.Keys
    && forall id | id in s.inputs :: RowsOk(s.world.tables[id], s.inputs[id], digest)
  }

  lemma StepRows(r: Readers, n: Index.Naming, digest: string -> string, s: Site, i: Ingestion)
    requires SiteOk(n, digest, s) && IngestionOk(r, n, digest, s, i) && InputOf(r, i).Some?
    ensures RowsOk(Index.After(s.world, RunOf(i, InputOf(r, i).value, digest)), InputOf(r, i).value, digest)
  {
    hide Ingested, WellFormed, Index.InStep, Index.RunOk, Reconciled, CollisionFree, Compared, Represents, Build;
    var input, before := InputOf(r, i).value, Index.RowsOf(s.world, i.repoID);
    var docs, pages := DocItems(input.documents, digest), PageItems(input.pages, digest);
    assert RowsHashed(before.docs, digest) && RowsHashed(before.pages, digest);
    IngestedPagesAreOnePerKey(r, i.head, i.branch, i.tree, digest);
    ReconciledRepresents(before.docs, docs, i.now, digest);
    ReconciledRepresents(before.pages, pages, i.now, digest);
  }

  lemma StepKeeps(r: Readers, n: Index.Naming, digest: string -> string, s: Site, i: Ingestion)
    requires SiteOk(n, digest, s) && IngestionOk(r, n, digest, s, i)
    ensures SiteOk(n, digest, Step(r, n, digest, s, i))
  {
    if InputOf(r, i).Some? {
      StepRows(r, n, digest, s, i);
      Index.IngestKeepsStep(n, s.world, RunOf(i, InputOf(r, i).value, digest));
    }
  }

  lemma {:induction false} StepsKeep(r: Readers, n: Index.Naming, digest: string -> string, s: Site, ingests: seq<Ingestion>)
    requires SiteOk(n, digest, s) && IngestionsOk(r, n, digest, s, ingests)
    ensures SiteOk(n, digest, Steps(r, n, digest, s, ingests))
    decreases |ingests|
  {
    hide SiteOk, IngestionOk, Step;
    if ingests != [] {
      StepKeeps(r, n, digest, s, ingests[0]);
      StepsKeep(r, n, digest, Step(r, n, digest, s, ingests[0]), ingests[1..]);
    }
  }

  // ---- what the index then holds ----

  /** A record of the repository under this document id, or published path, with this body. */
  ghost predicate Held(index: map<string, Index.IndexDoc>, repoID: nat, source: Index.Source, key: string, body: string) {
    exists k :: k in index && index[k].repoID == repoID && index[k].source == source && index[k].body == body
      && key == if source.Doc? then index[k].docID else index[k].path
  }

  /** A document of the tree with this id, or a page of it with this published path, and this content. */
  ghost predicate InTree(input: Input, source: Index.Source, key: string, body: string)
    requires Fronted(input.documents)
  {
    if source.Doc? then exists d :: d in input.documents && d.front.id == key && d.content == body
    else exists p :: p in input.pages && Text(p.path) == key && p.content == body
  }

  /** The index holds, of this repository, exactly the documents and pages of the tree. */
  ghost predicate HoldsTree(index: map<string, Index.IndexDoc>, repoID: nat, input: Input) {
    Fronted(input.documents) &&
    forall source, key, body :: Held(index, repoID, source, key, body) <==> InTree(input, source, key, body)
  }

  /** The content of the row under a key. */
  function Content(rows: Index.Rows, source: Index.Source, key: string): Option<string> {
    if source.Doc? then if key in rows.docs then Some(rows.docs[key].content) else None
    else if key in rows.pages then Some(rows.pages[key].content) else None
  }

  lemma HeldIffContent(
    index: map<string, Index.IndexDoc>, repo: Index.Repo, rows: Index.Rows, source: Index.Source, key: string, body: string)
    requires Index.Mirrors(index, repo, rows) && Index.Keyed(index)
    ensures Held(index, repo.id, source, key, body) <==> Content(rows, source, key) == Some(body)
  {
    if Held(index, repo.id, source, key, body) {
      var k :| k in index && index[k].repoID == repo.id && index[k].source == source && index[k].body == body
        && key == if source.Doc? then index[k].docID else index[k].path;
      assert index[k].id == k;
      assert Index.Image(repo, rows, index[k]);
    }
    if source.Doc? && key in rows.docs {
      var rec := Index.ToIndexDoc(repo, key, rows.docs[key]);
      assert Index.Image(repo, rows, rec);
      assert index[rec.id] == rec;
    }
    if source.Page? && key in rows.pages {
      var rec := Index.ToIndexPage(repo, key, rows.pages[key]);
      assert Index.Image(repo, rows, rec);
      assert index[rec.id] == rec;
    }
  }

  /** A row has the content of a document or page of its key; every key has a row; a page's is its own. */
  lemma ContentIsInTree(rows: Index.Rows, input: Input, digest: string -> string, source: Index.Source, key: string, body: string)
    requires RowsOk(rows, input, digest)
    ensures Content(rows, source, key) == Some(body) ==> InTree(input, source, key, body)
    ensures InTree(input, source, key, body) ==> Content(rows, source, key).Some?
    ensures source.Page? && InTree(input, source, key, body) ==> Content(rows, source, key) == Some(body)
  {
    hide RowsHashed, Represents, OnePerKey, DocItems, PageItems;
    if source.Doc? {
      var docs := DocItems(input.documents, digest);
      RowsAreItems(rows.docs, docs, key);
      DocItemsAre(input.documents, digest);
    } else {
      var pages := PageItems(input.pages, digest);
      RowsAreItems(rows.pages, pages, key);
      PageItemsAre(input.pages, digest);
    }
  }

  lemma DocItemsAre(documents: seq<Document>, digest: string -> string)
    requires Fronted(documents)
    ensures var items := DocItems(documents, digest);
      |items| == |documents|
      && forall i | 0 <= i < |items| :: items[i].key == documents[i].front.id && items[i].content == documents[i].content
  {
  }

  lemma PageItemsAre(pages: seq<Page>, digest: string -> string)
    ensures var items := PageItems(pages, digest);
      |items| == |pages|
      && forall i | 0 <= i < |items| :: items[i].key == Text(pages[i].path) && items[i].content == pages[i].content
  {
  }

  lemma RowsAreItems<M>(rows: map<string, Row<M>>, items: seq<Item<string, M>>, key: string)
    requires Represents(rows, items)
    ensures key in rows <==> exists i :: 0 <= i < |items| && items[i].key == key
    ensures key in rows ==> exists i :: 0 <= i < |items| && items[i].key == key && items[i].content == rows[key].content
    ensures OnePerKey(items) ==> forall i | 0 <= i < |items| && items[i].key == key :: key in rows && rows[key].content == items[i].content
  {
    assert key in rows.Keys <==> key in KeysOf(items);
  }

  /** Nothing is held that the tree does not have, and something of every document's id and every page's path. */
  ghost predicate HoldsPart(index: map<string, Index.IndexDoc>, repoID: nat, input: Input) {
    Fronted(input.documents) &&
    forall source, key, body ::
      && (Held(index, repoID, source, key, body) ==> InTree(input, source, key, body))
      && (InTree(input, source, key, body) ==> exists held :: Held(index, repoID, source, key, held))
  }

  lemma SiteHoldsPart(n: Index.Naming, digest: string -> string, s: Site, repoID: nat)
    requires SiteOk(n, digest, s)
    ensures if repoID in s.inputs then HoldsPart(s.world.index, repoID, s.inputs[repoID])
            else forall k | k in s.world.index :: s.world.index[k].repoID != repoID
  {
    var index, repo, rows := s.world.index, Index.RepoOf(n, repoID), Index.RowsOf(s.world, repoID);
    assert Index.DocIDsOk(rows) && Index.Mirrors(index, repo, rows);
    if repoID in s.inputs {
      var input := s.inputs[repoID];
      forall source, key, body
        ensures Held(index, repoID, source, key, body) ==> InTree(input, source, key, body)
        ensures InTree(input, source, key, body) ==> exists held :: Held(index, repoID, source, key, held)
      {
        HeldIffContent(index, repo, rows, source, key, body);
        ContentIsInTree(rows, input, digest, source, key, body);
        if InTree(input, source, key, body) {
          HeldIffContent(index, repo, rows, source, key, Content(rows, source, key).value);
        }
      }
    } else {
      forall k | k in index ensures index[k].repoID != repoID {
        var rec := index[k];
        assert rec.id == k;
        assert rec.repoID == repoID ==> Index.Image(repo, rows, rec);
      }
    }
  }

  lemma SiteHoldsTree(n: Index.Naming, digest: string -> string, s: Site, repoID: nat)
    requires SiteOk(n, digest, s) && repoID in s.inputs
    ensures HoldsTree(s.world.index, repoID, s.inputs[repoID]) <==> OneContentPerID(s.inputs[repoID].documents)
  {
    var index, repo, rows, input := s.world.index, Index.RepoOf(n, repoID), Index.RowsOf(s.world, repoID), s.inputs[repoID];
    assert Index.DocIDsOk(rows) && Index.Mirrors(index, repo, rows);
    if OneContentPerID(input.documents) {
      forall source, key, body ensures Held(index, repoID, source, key, body) <==> InTree(input, source, key, body) {
        HeldIffContent(index, repo, rows, source, key, body);
        ContentIsInTree(rows, input, digest, source, key, body);
        if source.Doc? && InTree(input, source, key, body) {
          ContentIsInTree(rows, input, digest, source, key, Content(rows, source, key).value);
        }
      }
    }
    if HoldsTree(index, repoID, input) {
      forall d, e | d in input.documents && e in input.documents && d.front.id == e.front.id ensures d.content == e.content {
        assert InTree(input, Index.Doc, d.front.id, d.content) && InTree(input, Index.Doc, d.front.id, e.content);
        HeldIffContent(index, repo, rows, Index.Doc, d.front.id, d.content);
        HeldIffContent(index, repo, rows, Index.Doc, d.front.id, e.content);
      }
    }
  }

  /**
   From an empty site, after any sequence of ingests of any repositories, failed
   ones included: the index holds of each repository exactly the documents and
   pages of the tree last ingested, with their contents, if and only if no two
   of those documents share an id and differ. Whether they do or not it holds
   nothing else, and something of every document's id.
  */
  lemma IndexHoldsTrees(r: Readers, n: Index.Naming, digest: string -> string, ingests: seq<Ingestion>, repoID: nat)
    requires IngestionsOk(r, n, digest, EMPTY, ingests)
    ensures var s := Steps(r, n, digest, EMPTY, ingests);
      if repoID in s.inputs then
        && HoldsPart(s.world.index, repoID, s.inputs[repoID])
        && (HoldsTree(s.world.index, repoID, s.inputs[repoID]) <==> OneContentPerID(s.inputs[repoID].documents))
      else forall k | k in s.world.index :: s.world.index[k].repoID != repoID
  {
    Index.EmptyInStep(n);
    StepsKeep(r, n, digest, EMPTY, ingests);
    var s := Steps(r, n, digest, EMPTY, ingests);
    SiteHoldsPart(n, digest, s, repoID);
    if repoID in s.inputs {
      SiteHoldsTree(n, digest, s, repoID);
    }
  }
}
