/**
 The push filter (internal/webhook/events.go), and why a push it turns away
 needs no ingest: the tree it leads to ingests as the one before it did.
*/
module PushFilter {
  import opened Wrappers
  import opened Paths
  import opened Repo
  import opened Fetch
  import opened Pages
  import opened Ingest

  /** The columns of the repo row the filter reads. */
  datatype RepoRow = RepoRow(docsDir: string, changelogFile: Option<Path>, landingPage: Option<Path>, additionalDocs: seq<Path>)

  datatype Commit = Commit(added: seq<Path>, modified: seq<Path>, removed: seq<Path>)

  datatype Push = Push(ref: string, defaultBranch: string, commits: seq<Commit>)

  /** What the last ingest left on the row. */
  function RowOf(input: Input): RepoRow {
    RepoRow(input.config.docsDir, input.changelogFile, input.landing, input.additionalDocs)
  }

  function Listed(f: Option<Path>): seq<Path> {
    if f.Some? && f.value != [] then [f.value] else []
  }

  function Watched(row: RepoRow): seq<Path> {
    Listed(row.changelogFile) + Listed(row.landingPage) + row.additionalDocs
  }

  predicate Triggers(row: RepoRow, p: Path) {
    p == CONFIG_FILE || HasPrefix(Text(p), row.docsDir + "/") || p in Watched(row)
  }

  predicate Touches(c: Commit, p: Path) {
    p in c.added || p in c.modified || p in c.removed
  }

  ghost predicate Changed(push: Push, p: Path) {
    exists i :: 0 <= i < |push.commits| && Touches(push.commits[i], p)
  }

  ghost predicate ShouldIngest(push: Push, row: RepoRow) {
    push.ref == "refs/heads/" + push.defaultBranch && exists p :: Changed(push, p) && Triggers(row, p)
  }

  lemma WatchedIff(row: RepoRow, p: Path)
    ensures p in Watched(row) <==>
      p in row.additionalDocs || (p != [] && (row.changelogFile == Some(p) || row.landingPage == Some(p)))
  {
  }

  /** A push to any other branch is turned away, and so is one that touches no file the row watches. */
  lemma OtherPushesAreTurnedAway(push: Push, row: RepoRow)
    requires push.ref != "refs/heads/" + push.defaultBranch
      || forall i, p | 0 <= i < |push.commits| && Touches(push.commits[i], p) ::
           && p != [".docz.yaml"] && !HasPrefix(Text(p), row.docsDir + "/") && p !in row.additionalDocs
           && (p == [] || (row.changelogFile != Some(p) && row.landingPage != Some(p)))
    ensures !ShouldIngest(push, row)
  {
    if push.ref == "refs/heads/" + push.defaultBranch {
      forall p | Changed(push, p) ensures !Triggers(row, p) {
        var i :| 0 <= i < |push.commits| && Touches(push.commits[i], p);
        WatchedIff(row, p);
      }
    }
  }

  // ---- the loops ----

  method WatchedFiles(row: RepoRow) returns (files: seq<Path>)
    ensures files == Watched(row)
  {
    files := [];
    var columns := [row.changelogFile, row.landingPage];
    for i := 0 to |columns|
      invariant i == 0 ==> files == []
      invariant i == 1 ==> files == Listed(row.changelogFile)
      invariant i == 2 ==> files == Listed(row.changelogFile) + Listed(row.landingPage)
    {
      if columns[i].Some? && columns[i].value != [] {
        files := files + [columns[i].value];
      }
    }
    files := files + row.additionalDocs;
  }

  /** One list of a commit, against the filter. */
  method Matches(paths: seq<Path>, row: RepoRow, watched: seq<Path>) returns (found: bool)
    requires watched == Watched(row)
    ensures found <==> exists p :: p in paths && Triggers(row, p)
  {
    var prefix := row.docsDir + "/";
    for i := 0 to |paths|
      invariant forall j | 0 <= j < i :: !Triggers(row, paths[j])
    {
      var p := paths[i];
      if p == CONFIG_FILE || HasPrefix(Text(p), prefix) || p in watched {
        assert p in paths && Triggers(row, p);
        return true;
      }
    }
    return false;
  }

  method ShouldIngestPush(push: Push, row: RepoRow) returns (ingest: bool)
    ensures ingest <==> ShouldIngest(push, row)
  {
    if push.ref != "refs/heads/" + push.defaultBranch {
      return false;
    }
    var watched := WatchedFiles(row);
    for i := 0 to |push.commits|
      invariant forall p, j | 0 <= j < i && Touches(push.commits[j], p) :: !Triggers(row, p)
    {
      var c := push.commits[i];
      var sets := [c.added, c.modified, c.removed];
      for k := 0 to 3
        invariant forall p, m | 0 <= m < k && p in sets[m] :: !Triggers(row, p)
      {
        var found := Matches(sets[k], row, watched);
        if found {
          ghost var p :| p in sets[k] && Triggers(row, p);
          assert Touches(c, p) && Changed(push, p);
          return true;
        }
      }
      assert forall p | Touches(c, p) :: !Triggers(row, p) by {
        assert sets[0] == c.added && sets[1] == c.modified && sets[2] == c.removed;
      }
    }
    return false;
  }

  // ---- trees that agree where it matters ----

  ghost predicate StrictOrder(less: (Path, Path) -> bool) {
    && (forall p :: !less(p, p))
    && (forall p, q, t :: less(p, q) && less(q, t) ==> less(p, t))
  }

  /** git lists a tree in one fixed order of its paths. */
  ghost predicate Sorted(tree: seq<Entry>, less: (Path, Path) -> bool) {
    forall i, j | 0 <= i < j < |tree| :: less(tree[i].path, tree[j].path)
  }

  /** A file the documents or the pages are made of: one in a type directory, or in a docs_dir that is published. */
  predicate Kept(cfg: Config, p: Path) {
    || (p != [] && exists i :: 0 <= i < |cfg.types| && cfg.types[i].dir == Dir(p))
    || (cfg.apiEnabled && [] !in cfg.exclude && Under(p, cfg.dir))
  }

  function Inside(tree: seq<Entry>, cfg: Config): seq<Entry> {
    if tree == [] then []
    else (if tree[0].isBlob && Kept(cfg, tree[0].path) then [tree[0]] else []) + Inside(tree[1..], cfg)
  }

  lemma {:induction false} InsideIff(tree: seq<Entry>, cfg: Config, e: Entry)
    ensures e in Inside(tree, cfg) <==> e in tree && e.isBlob && Kept(cfg, e.path)
  {
    if tree != [] {
      InsideIff(tree[1..], cfg, e);
    }
  }

  lemma {:induction false} InsideSorted(tree: seq<Entry>, cfg: Config, less: (Path, Path) -> bool)
    requires Sorted(tree, less)
    ensures Sorted(Inside(tree, cfg), less)
  {
    if tree != [] {
      var tail := tree[1..];
      assert forall i | 0 <= i < |tail| :: tail[i] == tree[i + 1];
      InsideSorted(tail, cfg, less);
      var rest := Inside(tail, cfg);
      forall i | 0 <= i < |rest| ensures less(tree[0].path, rest[i].path) {
        InsideIff(tail, cfg, rest[i]);
        var j :| 0 <= j < |tail| && tail[j] == rest[i];
        assert tree[j + 1] == rest[i];
      }
    }
  }

  ghost predicate SameEntries(a: seq<Entry>, b: seq<Entry>) {
    forall e :: e in a <==> e in b
  }

  lemma EmptySame(a: seq<Entry>, b: seq<Entry>)
    requires SameEntries(a, b)
    ensures a == [] <==> b == []
  {
    assert a != [] ==> a[0] in b;
    assert b != [] ==> b[0] in a;
  }

  lemma FirstIsLeast(a: seq<Entry>, less: (Path, Path) -> bool, e: Entry)
    requires Sorted(a, less) && e in a
    ensures e == a[0] || less(a[0].path, e.path)
  {
  }

  lemma HeadsSame(a: seq<Entry>, b: seq<Entry>, less: (Path, Path) -> bool)
    requires StrictOrder(less) && Sorted(a, less) && Sorted(b, less) && SameEntries(a, b) && a != [] && b != []
    ensures a[0] == b[0]
  {
    assert a[0] in b && b[0] in a;
    FirstIsLeast(a, less, b[0]);
    FirstIsLeast(b, less, a[0]);
  }

  lemma TailOf(a: seq<Entry>, less: (Path, Path) -> bool, e: Entry)
    requires StrictOrder(less) && Sorted(a, less) && a != []
    ensures e in a[1..] <==> e in a && e != a[0]
  {
    assert a == [a[0]] + a[1..];
    if e in a[1..] {
      var i :| 0 <= i < |a[1..]| && a[1..][i] == e;
      assert less(a[0].path, a[i + 1].path);
    }
  }

  lemma {:induction false} SortedSame(a: seq<Entry>, b: seq<Entry>, less: (Path, Path) -> bool)
    requires StrictOrder(less) && Sorted(a, less) && Sorted(b, less) && SameEntries(a, b)
    ensures a == b
  {
    EmptySame(a, b);
    if a != [] {
      HeadsSame(a, b, less);
      var x, y := a[1..], b[1..];
      forall e ensures e in x <==> e in y {
        TailOf(a, less, e);
        TailOf(b, less, e);
      }
      assert forall k | 0 <= k < |x| :: x[k] == a[k + 1];
      assert forall k | 0 <= k < |y| :: y[k] == b[k + 1];
      SortedSame(x, y, less);
      assert a == [a[0]] + x && b == [b[0]] + y;
    }
  }

  lemma InsideSame(t1: seq<Entry>, t2: seq<Entry>, cfg: Config, less: (Path, Path) -> bool)
    requires WellFormed(t1) && WellFormed(t2)
    requires StrictOrder(less) && Sorted(t1, less) && Sorted(t2, less)
    requires forall p | Kept(cfg, p) :: Find(t1, p) == Find(t2, p)
    ensures Inside(t1, cfg) == Inside(t2, cfg)
  {
    InsideSorted(t1, cfg, less);
    InsideSorted(t2, cfg, less);
    forall e ensures e in Inside(t1, cfg) <==> e in Inside(t2, cfg) {
      InsideIff(t1, cfg, e);
      InsideIff(t2, cfg, e);
      FindIffIn(t1, e.path, e.sha);
      FindIffIn(t2, e.path, e.sha);
      assert e.isBlob ==> e == Entry(e.path, true, e.sha);
    }
    SortedSame(Inside(t1, cfg), Inside(t2, cfg), less);
  }

  // ---- what depends on the kept files alone ----

  function BlobsInside(blobs: seq<Blob>, cfg: Config): seq<Blob> {
    if blobs == [] then []
    else (if Kept(cfg, blobs[0].path) then [blobs[0]] else []) + BlobsInside(blobs[1..], cfg)
  }

  lemma {:induction false} BlobsInsideAppend(a: seq<Blob>, b: seq<Blob>, cfg: Config)
    ensures BlobsInside(a + b, cfg) == BlobsInside(a, cfg) + BlobsInside(b, cfg)
  {
    if a == [] {
      assert a + b == b;
    } else {
      assert (a + b)[0] == a[0] && (a + b)[1..] == a[1..] + b;
      BlobsInsideAppend(a[1..], b, cfg);
    }
  }

  lemma {:induction false} ClassifiedInside(tree: seq<Entry>, cfg: Config, dir: Path, apiEnabled: bool, contents: string -> string)
    ensures BlobsInside(Blobs(Classified(tree, dir, apiEnabled), contents), cfg) ==
      Blobs(Classified(Inside(tree, cfg), dir, apiEnabled), contents)
  {
    if tree != [] {
      ClassifiedInside(tree[1..], cfg, dir, apiEnabled, contents);
      var e, rest := tree[0], Classified(tree[1..], dir, apiEnabled);
      var head := if Wanted(e, dir, apiEnabled) then [e] else [];
      BlobsAppend(head, rest, contents);
      BlobsInsideAppend(Blobs(head, contents), Blobs(rest, contents), cfg);
      var one := if e.isBlob && Kept(cfg, e.path) then [e] else [];
      ClassifiedAppend(one, Inside(tree[1..], cfg), dir, apiEnabled);
      BlobsAppend(Classified(one, dir, apiEnabled), Classified(Inside(tree[1..], cfg), dir, apiEnabled), contents);
      OneInside(e, cfg, dir, apiEnabled, contents);
    }
  }

  lemma OneInside(e: Entry, cfg: Config, dir: Path, apiEnabled: bool, contents: string -> string)
    ensures var head := if Wanted(e, dir, apiEnabled) then [e] else [];
      var one := if e.isBlob && Kept(cfg, e.path) then [e] else [];
      BlobsInside(Blobs(head, contents), cfg) == Blobs(Classified(one, dir, apiEnabled), contents)
  {
    hide Kept;
    assert Blobs([e], contents) == [Blob(e.path, e.sha, contents(e.sha))];
  }

  lemma {:induction false} TypeAtIsIn(types: seq<TypeDir>, dir: Path)
    ensures TypeAt(types, dir).Some? <==> exists i :: 0 <= i < |types| && types[i].dir == dir
  {
    if types != [] && types[|types| - 1].dir != dir {
      var front := types[..|types| - 1];
      TypeAtIsIn(front, dir);
      if i :| 0 <= i < |types| && types[i].dir == dir {
        assert front[i].dir == dir;
      }
    }
  }

  lemma DocumentsAreKept(r: Readers, cfg: Config, b: Blob)
    ensures DocumentOf(r, cfg, b) != Some([]) ==> Kept(cfg, b.path)
  {
    if b.path != [] {
      TypeAtIsIn(cfg.types, Dir(b.path));
    }
  }

  lemma {:induction false} DocumentsInside(r: Readers, cfg: Config, blobs: seq<Blob>)
    ensures Documents(r, cfg, blobs) == Documents(r, cfg, BlobsInside(blobs, cfg))
  {
    if blobs != [] {
      var b, rest := blobs[0], BlobsInside(blobs[1..], cfg);
      DocumentsInside(r, cfg, blobs[1..]);
      DocumentsAreKept(r, cfg, b);
      hide Kept, DocumentOf;
      if Kept(cfg, b.path) {
        assert ([b] + rest)[1..] == rest;
      } else {
        if Documents(r, cfg, blobs[1..]).Some? {
          assert [] + Documents(r, cfg, blobs[1..]).value == Documents(r, cfg, blobs[1..]).value;
        }
        assert [] + rest == rest;
      }
    }
  }

  lemma ExcludedWhole(cfg: Config, p: Path)
    requires Under(p, cfg.dir) && [] in cfg.exclude
    ensures Excluded(cfg, p)
  {
    var i :| 0 <= i < |cfg.exclude| && cfg.exclude[i] == [];
    assert ExcludePrefixes(cfg)[i + 1] == cfg.dir;
  }

  lemma PublishableIsKept(cfg: Config, p: Path)
    requires cfg.apiEnabled
    ensures Publishable(cfg, p) ==> Kept(cfg, p)
  {
    if Under(p, cfg.dir) && [] in cfg.exclude {
      ExcludedWhole(cfg, p);
    }
  }

  lemma {:induction false} DocsPagesInside(r: Readers, cfg: Config, readmes: set<Path>, blobs: seq<Blob>)
    requires cfg.apiEnabled
    ensures DocsPages(r, cfg, readmes, blobs) == DocsPages(r, cfg, readmes, BlobsInside(blobs, cfg))
  {
    if blobs != [] {
      DocsPagesInside(r, cfg, readmes, blobs[1..]);
      var b, rest := blobs[0], BlobsInside(blobs[1..], cfg);
      PublishableIsKept(cfg, b.path);
      hide Publishable, Kept;
      if Kept(cfg, b.path) {
        assert ([b] + rest)[1..] == rest;
      } else {
        assert PageOf(r, cfg, readmes, b) == [] && [] + rest == rest;
      }
    }
  }

  lemma {:induction false} InBlobsInside(blobs: seq<Blob>, cfg: Config, b: Blob)
    ensures b in BlobsInside(blobs, cfg) <==> b in blobs && Kept(cfg, b.path)
  {
    hide Kept;
    if blobs != [] {
      InBlobsInside(blobs[1..], cfg, b);
    }
  }

  lemma ReadmeDirsInside(cfg: Config, blobs: seq<Blob>)
    requires cfg.apiEnabled
    ensures ReadmeDirs(cfg, blobs) == ReadmeDirs(cfg, BlobsInside(blobs, cfg))
  {
    forall b: Blob
      ensures b in BlobsInside(blobs, cfg) <==> b in blobs && Kept(cfg, b.path)
      ensures Claims(cfg, b.path) ==> Kept(cfg, b.path)
    {
      InBlobsInside(blobs, cfg, b);
      PublishableIsKept(cfg, b.path);
    }
  }

  // ---- what depends on additional_docs ----

  lemma {:induction false} AdditionalHas(tree: seq<Entry>, entries: seq<Path>, contents: string -> string, p: Path)
    requires p in entries && IsMarkdown(p) && Find(tree, p).Some?
    ensures exists b :: b in Additional(tree, entries, contents) && b.path == p
  {
    if entries[0] == p {
      var b := Blob(p, Find(tree, p).value, contents(Find(tree, p).value));
      assert Additional(tree, entries, contents)[0] == b;
    } else {
      AdditionalHas(tree, entries[1..], contents, p);
      var b :| b in Additional(tree, entries[1..], contents) && b.path == p;
      assert b in Additional(tree, entries, contents);
    }
  }

  lemma {:induction false} AdditionalSame(t1: seq<Entry>, t2: seq<Entry>, entries: seq<Path>, contents: string -> string)
    requires forall p | p in entries :: Find(t1, p) == Find(t2, p)
    ensures Additional(t1, entries, contents) == Additional(t2, entries, contents)
  {
    if entries != [] {
      assert entries[0] in entries;
      AdditionalSame(t1, t2, entries[1..], contents);
    }
  }

  lemma {:induction false} ExtraPagesSame(r: Readers, docs: seq<Page>, a: seq<Blob>, b: seq<Blob>, entries: seq<Path>)
    requires forall p | p in entries && IsMarkdown(p) :: BlobAt(a, p) == BlobAt(b, p)
    ensures ExtraPages(r, docs, a, entries) == ExtraPages(r, docs, b, entries)
  {
    if entries != [] {
      assert entries[0] in entries;
      ExtraPagesSame(r, docs, a, b, entries[1..]);
    }
  }

  // ---- a push turned away ----

  /** The file at p is one an ingest reads. */
  ghost predicate Read(cfg: Config, row: RepoRow, p: Path) {
    || p == CONFIG_FILE || p in Watched(row) || Kept(cfg, p)
    || (!cfg.apiEnabled && p == cfg.dir + [INDEX_NAME])
  }

  /** The two trees hold the same files wherever an ingest looks. */
  ghost predicate AgreeWhereRead(t1: seq<Entry>, t2: seq<Entry>, cfg: Config, row: RepoRow) {
    forall p | Read(cfg, row, p) :: Find(t1, p) == Find(t2, p)
  }

  lemma {:induction false} FoundIsClean(tree: seq<Entry>, p: Path)
    requires WellFormed(tree) && Find(tree, p).Some?
    ensures Clean(p)
  {
    FindIffIn(tree, p, Find(tree, p).value);
  }

  /** A directory that a tree with a .docz.yaml can have files in. */
  predicate CanHold(dir: Path) {
    (dir == [] || Clean(dir)) && !(CONFIG_FILE <= dir)
  }

  /** With docs_dir written as raw, the filter's prefix takes in every file under dir. */
  predicate Covers(raw: string, dir: Path) {
    dir != [] && HasPrefix(Text(dir) + "/", raw + "/")
  }

  /**
   What a config must meet for the filter to see every file an ingest reads:
   each type directory is covered, and docs_dir is, where its files are
   published or its index.md is the repository's home.
  */
  predicate Watches(cfg: Config) {
    && (forall i | 0 <= i < |cfg.types| && CanHold(cfg.types[i].dir) :: Covers(cfg.docsDir, cfg.types[i].dir))
    && (CanHold(cfg.dir) ==>
          || Covers(cfg.docsDir, cfg.dir)
          || (if cfg.apiEnabled then cfg.dir == [] || [] in cfg.exclude
              else cfg.changelogEnabled && cfg.changelogFile == cfg.dir + [INDEX_NAME]))
  }

  /** A covered directory's files all have the prefix; of an uncovered one no file has, itself in it. */
  lemma CoveredFiles(raw: string, dir: Path, name: string)
    requires '/' !in name
    ensures HasPrefix(Text(dir + [name]), raw + "/") <==> Covers(raw, dir)
  {
    var s := Text(dir + [name]);
    if dir == [] {
      assert dir + [name] == [name];
      InsideHasSlash(name, raw);
    } else {
      TextSnoc(dir, name);
      var d, q := Text(dir) + "/", raw + "/";
      assert s == d + name;
      if q <= s {
        assert s[|raw|] == q[|raw|] == '/';
        assert forall i | |d| <= i < |s| :: s[i] == name[i - |d|];
        assert |q| <= |d|;
        assert q == s[..|q|] == d[..|q|];
      }
      if q <= d {
        assert q == d[..|q|] == s[..|q|];
      }
    }
  }

  lemma CoveredDeepFiles(raw: string, dir: Path, p: Path)
    requires Clean(p) && Clean(dir) && Under(p, dir) && Covers(raw, dir)
    ensures HasPrefix(Text(p), raw + "/")
  {
    UnderIsPrefix(p, dir);
    var d, q, s := Text(dir) + "/", raw + "/", Text(p);
    assert q == d[..|q|] == s[..|q|];
  }

  lemma NotUnderConfig(tree: seq<Entry>, p: Path)
    requires WellFormed(tree) && Find(tree, CONFIG_FILE).Some? && Find(tree, p).Some?
    ensures Clean(p) && !Under(p, CONFIG_FILE)
  {
    FoundIsClean(tree, p);
    FindIffIn(tree, p, Find(tree, p).value);
    FindIffIn(tree, CONFIG_FILE, Find(tree, CONFIG_FILE).value);
  }

  /** p is a file directly in dir, where a file can be. */
  predicate FileIn(p: Path, dir: Path) {
    p != [] && dir == Dir(p) && '/' !in Base(p) && CanHold(dir)
  }

  lemma CleanFileIn(p: Path)
    requires Clean(p) && !Under(p, CONFIG_FILE) && p != CONFIG_FILE
    ensures FileIn(p, Dir(p))
  {
    var dir := Dir(p);
    assert p == dir + [Base(p)] && '/' !in Base(p);
    assert dir != [] ==> Clean(dir);
  }

  lemma CoveredFileTriggers(row: RepoRow, p: Path, dir: Path)
    requires FileIn(p, dir) && Covers(row.docsDir, dir)
    ensures Triggers(row, p)
  {
    hide Covers, Text, Watched;
    assert p == dir + [Base(p)];
    CoveredFiles(row.docsDir, dir, Base(p));
  }

  lemma PageTriggers(row: RepoRow, cfg: Config, p: Path)
    requires Watches(cfg) && row.docsDir == cfg.docsDir && cfg.apiEnabled && [] !in cfg.exclude
    requires Clean(p) && !Under(p, CONFIG_FILE) && Under(p, cfg.dir)
    ensures Triggers(row, p)
  {
    hide Covers, Text, Watched;
    assert Clean(cfg.dir) by { assert forall i | 0 <= i < |cfg.dir| :: cfg.dir[i] == p[i]; }
    assert CanHold(cfg.dir);
    CoveredDeepFiles(cfg.docsDir, cfg.dir, p);
  }

  lemma TypedFileTriggers(row: RepoRow, cfg: Config, p: Path, i: nat)
    requires Watches(cfg) && row.docsDir == cfg.docsDir && i < |cfg.types| && p != [] && cfg.types[i].dir == Dir(p)
    requires Clean(p) && !Under(p, CONFIG_FILE) && p != CONFIG_FILE
    ensures Triggers(row, p)
  {
    hide Covers, Text, Clean, HasPrefix, Under, Watched, CanHold;
    CleanFileIn(p);
    CoveredFileTriggers(row, p, Dir(p));
  }

  lemma IndexTriggers(row: RepoRow, cfg: Config, p: Path)
    requires Watches(cfg) && Reflects(row, cfg) && !cfg.apiEnabled && p == cfg.dir + [INDEX_NAME] && p !in Watched(row)
    requires Clean(p) && !Under(p, CONFIG_FILE) && p != CONFIG_FILE
    ensures Triggers(row, p)
  {
    hide Covers, Text, Clean, HasPrefix, Under, CanHold;
    assert Dir(p) == cfg.dir;
    CleanFileIn(p);
    CoveredFileTriggers(row, p, cfg.dir);
  }

  /** A file an ingest reads, where a file can be, triggers. */
  lemma ReadFilesTrigger(row: RepoRow, cfg: Config, p: Path)
    requires Watches(cfg) && Reflects(row, cfg)
    requires Read(cfg, row, p) && Clean(p) && !Under(p, CONFIG_FILE)
    ensures Triggers(row, p)
  {
    assert p != [];
    hide Text, Clean, HasPrefix, Watches, Under, Watched;
    if !(p in Watched(row) || p == CONFIG_FILE) {
      if i :| 0 <= i < |cfg.types| && cfg.types[i].dir == Dir(p) {
        TypedFileTriggers(row, cfg, p, i);
      } else if cfg.apiEnabled {
        PageTriggers(row, cfg, p);
      } else {
        IndexTriggers(row, cfg, p);
      }
    }
  }

  lemma UntouchedFilesAgree(push: Push, row: RepoRow, cfg: Config, t1: seq<Entry>, t2: seq<Entry>)
    requires WellFormed(t1) && WellFormed(t2) && Find(t1, CONFIG_FILE).Some?
    requires push.ref == "refs/heads/" + push.defaultBranch && !ShouldIngest(push, row)
    requires forall p | Find(t1, p) != Find(t2, p) :: Changed(push, p)
    requires Watches(cfg) && Reflects(row, cfg)
    ensures AgreeWhereRead(t1, t2, cfg, row)
  {
    assert Triggers(row, CONFIG_FILE);
    assert Find(t2, CONFIG_FILE) == Find(t1, CONFIG_FILE);
    forall p | Read(cfg, row, p) ensures Find(t1, p) == Find(t2, p) {
      if Find(t1, p).Some? {
        NotUnderConfig(t1, p);
        ReadFilesTrigger(row, cfg, p);
      } else if Find(t2, p).Some? {
        NotUnderConfig(t2, p);
        ReadFilesTrigger(row, cfg, p);
      }
    }
  }

  /** The config an ingest of the tree reads. */
  function ConfigOf(r: Readers, tree: seq<Entry>): Option<Config> {
    match Load(tree, CONFIG_FILE, r.contents)
    case None => None
    case Some(f) => r.parse(f.content)
  }

  function HintsOf(r: Readers, tree: seq<Entry>): Hints
    requires Load(tree, CONFIG_FILE, r.contents).Some?
  {
    r.hints(Load(tree, CONFIG_FILE, r.contents).value.content)
  }

  /** The row is what ingesting cfg leaves. */
  predicate Reflects(row: RepoRow, cfg: Config) {
    && row.docsDir == cfg.docsDir
    && row.changelogFile == (if cfg.changelogEnabled then Some(cfg.changelogFile) else None)
    && row.landingPage == (if cfg.apiEnabled then Some(cfg.landingPage) else None)
    && row.additionalDocs == if cfg.apiEnabled then cfg.additionalDocs else []
  }

  lemma NothingUnnamed(tree: seq<Entry>)
    requires WellFormed(tree)
    ensures Find(tree, []).None?
  {
    if Find(tree, []).Some? {
      FoundIsClean(tree, []);
    }
  }

  lemma SnapshotsAgree(r: Readers, h1: string, h2: string, branch: string, t1: seq<Entry>, t2: seq<Entry>, cfg: Config, row: RepoRow)
    requires WellFormed(t1) && WellFormed(t2) && AgreeWhereRead(t1, t2, cfg, row)
    requires ConfigOf(r, t1) == Some(cfg) && Agree(HintsOf(r, t1), cfg) && Reflects(row, cfg)
    ensures Fetched(r, h1, branch, t1).Some? && Fetched(r, h2, branch, t2).Some?
    ensures var a := Fetched(r, h1, branch, t1).value;
      var b := Fetched(r, h2, branch, t2).value;
      a.config == b.config && a.changelog == b.changelog && a.index == b.index
  {
    assert Read(cfg, row, CONFIG_FILE);
    var h := HintsOf(r, t1);
    NothingUnnamed(t1);
    NothingUnnamed(t2);
    if h.changelogEnabled {
      assert h.changelogFile == [] || Read(cfg, row, h.changelogFile);
    }
    assert LandingPath(h) == [] || Read(cfg, row, LandingPath(h));
    hide WellFormed, AgreeWhereRead, Read, Watched, Classified, Blobs, Additional;
  }

  lemma InsideBlobsAgree(r: Readers, h1: string, h2: string, branch: string, t1: seq<Entry>, t2: seq<Entry>, cfg: Config, row: RepoRow, less: (Path, Path) -> bool)
    requires WellFormed(t1) && WellFormed(t2) && AgreeWhereRead(t1, t2, cfg, row)
    requires StrictOrder(less) && Sorted(t1, less) && Sorted(t2, less)
    requires ConfigOf(r, t1) == Some(cfg) && Agree(HintsOf(r, t1), cfg) && Reflects(row, cfg)
    requires Fetched(r, h1, branch, t1).Some? && Fetched(r, h2, branch, t2).Some?
    ensures BlobsInside(Fetched(r, h1, branch, t1).value.blobs, cfg) == BlobsInside(Fetched(r, h2, branch, t2).value.blobs, cfg)
  {
    assert Read(cfg, row, CONFIG_FILE);
    assert Find(t1, CONFIG_FILE) == Find(t2, CONFIG_FILE);
    var h := HintsOf(r, t1);
    var x1, x2 := Blobs(Classified(t1, h.dir, h.apiEnabled), r.contents), Blobs(Classified(t2, h.dir, h.apiEnabled), r.contents);
    var y1 := if h.apiEnabled then Additional(t1, h.additionalDocs, r.contents) else [];
    var y2 := if h.apiEnabled then Additional(t2, h.additionalDocs, r.contents) else [];
    assert Fetched(r, h1, branch, t1).value.blobs == x1 + y1;
    assert Fetched(r, h2, branch, t2).value.blobs == x2 + y2;
    if h.apiEnabled {
      assert forall p | p in h.additionalDocs :: Read(cfg, row, p);
      AdditionalSame(t1, t2, h.additionalDocs, r.contents);
    }
    assert forall p | Kept(cfg, p) :: Read(cfg, row, p);
    InsideSame(t1, t2, cfg, less);
    ClassifiedInside(t1, cfg, h.dir, h.apiEnabled, r.contents);
    ClassifiedInside(t2, cfg, h.dir, h.apiEnabled, r.contents);
    BlobsInsideAppend(x1, y1, cfg);
    BlobsInsideAppend(x2, y2, cfg);
  }

  /** The blob the pages find for an additional_docs entry is the tree's file. */
  lemma FetchedBlobAt(r: Readers, head: string, branch: string, tree: seq<Entry>, p: Path)
    requires WellFormed(tree) && Fetched(r, head, branch, tree).Some?
    requires HintsOf(r, tree).apiEnabled && p in HintsOf(r, tree).additionalDocs && IsMarkdown(p)
    ensures BlobAt(Fetched(r, head, branch, tree).value.blobs, p) ==
      match Find(tree, p) case None => None case Some(sha) => Some(Blob(p, sha, r.contents(sha)))
  {
    var h := HintsOf(r, tree);
    var blobs := Fetched(r, head, branch, tree).value.blobs;
    BlobAtIsIn(blobs, p);
    if Find(tree, p).Some? {
      AdditionalHas(tree, h.additionalDocs, r.contents, p);
      var b :| b in Additional(tree, h.additionalDocs, r.contents) && b.path == p;
      assert b in blobs;
    }
    if BlobAt(blobs, p).Some? {
      BlobsAreFiles(r, head, branch, tree, BlobAt(blobs, p).value);
    }
  }

  lemma PagesAgree(r: Readers, h1: string, h2: string, branch: string, t1: seq<Entry>, t2: seq<Entry>, cfg: Config, row: RepoRow)
    requires WellFormed(t1) && WellFormed(t2) && AgreeWhereRead(t1, t2, cfg, row)
    requires ConfigOf(r, t1) == Some(cfg) && Agree(HintsOf(r, t1), cfg) && Reflects(row, cfg)
    requires Fetched(r, h1, branch, t1).Some? && Fetched(r, h2, branch, t2).Some?
    requires BlobsInside(Fetched(r, h1, branch, t1).value.blobs, cfg) == BlobsInside(Fetched(r, h2, branch, t2).value.blobs, cfg)
    ensures Build(r, cfg, Fetched(r, h1, branch, t1).value.blobs) == Build(r, cfg, Fetched(r, h2, branch, t2).value.blobs)
  {
    assert Read(cfg, row, CONFIG_FILE);
    var a, b := Fetched(r, h1, branch, t1).value.blobs, Fetched(r, h2, branch, t2).value.blobs;
    if cfg.apiEnabled {
      ReadmeDirsInside(cfg, a);
      ReadmeDirsInside(cfg, b);
      var readmes := ReadmeDirs(cfg, a);
      DocsPagesInside(r, cfg, readmes, a);
      DocsPagesInside(r, cfg, readmes, b);
      forall p | p in cfg.additionalDocs && IsMarkdown(p) ensures BlobAt(a, p) == BlobAt(b, p) {
        assert Read(cfg, row, p);
        FetchedBlobAt(r, h1, branch, t1, p);
        FetchedBlobAt(r, h2, branch, t2, p);
      }
      ExtraPagesSame(r, DocsPages(r, cfg, readmes, a), a, b, cfg.additionalDocs);
    }
  }

  ghost predicate SameButHead(a: Option<Input>, b: Option<Input>) {
    a.Some? == b.Some? && (a.Some? ==> b.value == a.value.(headSHA := b.value.headSHA))
  }

  /**
   A push to the default branch that the filter turns away leads to a tree that
   ingests as the one before it, head sha aside, provided the row is what the
   last ingest left and the filter's prefix covers the directories an ingest
   reads.
  */
  lemma FilteredPushChangesNothing(
    r: Readers, push: Push, row: RepoRow, cfg: Config, h1: string, h2: string, branch: string,
    t1: seq<Entry>, t2: seq<Entry>, less: (Path, Path) -> bool)
    requires WellFormed(t1) && WellFormed(t2) && StrictOrder(less) && Sorted(t1, less) && Sorted(t2, less)
    requires push.ref == "refs/heads/" + push.defaultBranch && !ShouldIngest(push, row)
    requires forall p | Find(t1, p) != Find(t2, p) :: Changed(push, p)
    requires ConfigOf(r, t1) == Some(cfg) && Agree(HintsOf(r, t1), cfg) && Reflects(row, cfg)
    requires Watches(cfg)
    ensures SameButHead(Ingested(r, h1, branch, t1), Ingested(r, h2, branch, t2))
  {
    UntouchedFilesAgree(push, row, cfg, t1, t2);
    SnapshotsAgree(r, h1, h2, branch, t1, t2, cfg, row);
    InsideBlobsAgree(r, h1, h2, branch, t1, t2, cfg, row, less);
    PagesAgree(r, h1, h2, branch, t1, t2, cfg, row);
    DocumentsInside(r, cfg, Fetched(r, h1, branch, t1).value.blobs);
    DocumentsInside(r, cfg, Fetched(r, h2, branch, t2).value.blobs);
    hide Fetched, Documents, Build, BlobsInside, WellFormed, AgreeWhereRead, ShouldIngest, Changed, Sorted, StrictOrder, Find;
  }

  /** The row an ingest leaves is the one the filter should read. */
  lemma IngestLeavesRow(r: Readers, head: string, branch: string, tree: seq<Entry>)
    requires Ingested(r, head, branch, tree).Some?
    ensures var input := Ingested(r, head, branch, tree).value;
      Reflects(RowOf(input), input.config) && ConfigOf(r, tree) == Some(input.config)
  {
  }

  // ---- a type directory the prefix does not cover ----

  lemma {:induction false} FindSnoc(tree: seq<Entry>, e: Entry, p: Path)
    requires p != e.path
    ensures Find(tree + [e], p) == Find(tree, p)
  {
    if tree == [] {
      assert tree + [e] == [e] && [e][1..] == [];
    } else {
      assert (tree + [e])[0] == tree[0] && (tree + [e])[1..] == tree[1..] + [e];
      FindSnoc(tree[1..], e, p);
    }
  }

  /** The commit that adds p and nothing else, pushed to the default branch. */
  function Adding(p: Path, branch: string): Push {
    Push("refs/heads/" + branch, branch, [Commit([p], [], [])])
  }

  lemma AddedDocumentIsFetched(r: Readers, row: RepoRow, cfg: Config, h2: string, branch: string, tree: seq<Entry>, td: Path, name: string, sha: string)
    returns (x: seq<Blob>, y: seq<Blob>)
    requires ConfigOf(r, tree) == Some(cfg) && Agree(HintsOf(r, tree), cfg) && Reflects(row, cfg)
    requires IsDoczFile(name) && Find(tree, td + [name]).None? && !Triggers(row, td + [name])
    ensures Fetched(r, h2, branch, tree).Some? && Fetched(r, h2, branch, tree).value.blobs == x + y
    ensures var after := Fetched(r, h2, branch, tree + [Entry(td + [name], true, sha)]);
      && after.Some? && after.value.config == Fetched(r, h2, branch, tree).value.config
      && after.value.blobs == x + [Blob(td + [name], sha, r.contents(sha))] + y
  {
    var p, e := td + [name], Entry(td + [name], true, sha);
    FindSnoc(tree, e, CONFIG_FILE);
    var h := HintsOf(r, tree);
    x := Blobs(Classified(tree, h.dir, h.apiEnabled), r.contents);
    y := if h.apiEnabled then Additional(tree, h.additionalDocs, r.contents) else [];
    ClassifiedAppend(tree, [e], h.dir, h.apiEnabled);
    assert Classified([e], h.dir, h.apiEnabled) == [e] by { assert Base(p) == name && [e][1..] == []; }
    BlobsAppend(Classified(tree, h.dir, h.apiEnabled), [e], r.contents);
    assert Blobs([e], r.contents) == [Blob(p, sha, r.contents(sha))];
    if h.apiEnabled {
      forall q | q in h.additionalDocs ensures Find(tree, q) == Find(tree + [e], q) {
        assert q in Watched(row);
        FindSnoc(tree, e, q);
      }
      AdditionalSame(tree, tree + [e], h.additionalDocs, r.contents);
    }
    hide IsDoczFile, Triggers, Watched, Classified, Blobs, Additional, Find;
  }

  lemma UncoveredDoesNotTrigger(row: RepoRow, td: Path, name: string)
    requires !Covers(row.docsDir, td) && '/' !in name && name != ".docz.yaml" && td + [name] !in Watched(row)
    ensures !Triggers(row, td + [name])
    ensures forall branch :: !ShouldIngest(Adding(td + [name], branch), row)
  {
    var p := td + [name];
    CoveredFiles(row.docsDir, td, name);
    assert p[|p| - 1] == name;
    forall branch, q | Changed(Adding(p, branch), q) ensures !Triggers(row, q) {
      assert q == p;
    }
  }

  /**
   A type directory the prefix does not cover: whatever the tree, a push that
   adds a document there under a name not watched is turned away.
  */
  lemma DocumentOutsideDocsDirIsMissed(
    r: Readers, row: RepoRow, cfg: Config, h1: string, h2: string, branch: string, tree: seq<Entry>, td: Path, name: string, sha: string)
    requires Ingested(r, h1, branch, tree).Some? && ConfigOf(r, tree) == Some(cfg)
    requires Agree(HintsOf(r, tree), cfg) && Reflects(row, cfg)
    requires TypeAt(cfg.types, td).Some? && r.front(r.contents(sha)).Front?
    requires IsDoczFile(name) && '/' !in name && Find(tree, td + [name]).None?
    requires !Covers(cfg.docsDir, td) && td + [name] !in Watched(row)
    ensures !ShouldIngest(Adding(td + [name], branch), row)
    ensures var after := Ingested(r, h2, branch, tree + [Entry(td + [name], true, sha)]);
      after.Some? && |after.value.documents| == |Ingested(r, h1, branch, tree).value.documents| + 1
  {
    hide Triggers, Build, Documents, Find, Covers, ShouldIngest;
    assert name != ".docz.yaml";
    UncoveredDoesNotTrigger(row, td, name);
    var x, y := AddedDocumentIsFetched(r, row, cfg, h2, branch, tree, td, name, sha);
    assert Dir(td + [name]) == td;
    OneMore(r, cfg, x, Blob(td + [name], sha, r.contents(sha)), y);
  }

  lemma OneMore(r: Readers, cfg: Config, x: seq<Blob>, b: Blob, y: seq<Blob>)
    requires Documents(r, cfg, x + y).Some? && DocumentOf(r, cfg, b).Some? && |DocumentOf(r, cfg, b).value| == 1
    ensures Documents(r, cfg, x + [b] + y).Some?
    ensures |Documents(r, cfg, x + [b] + y).value| == |Documents(r, cfg, x + y).value| + 1
  {
    DocumentsAppend(r, cfg, x, y);
    DocumentsAppend(r, cfg, x, [b]);
    DocumentsAppend(r, cfg, x + [b], y);
    DocumentsOfOne(r, cfg, b);
    hide Documents, DocumentOf;
  }
}
