/**
 Exactly when the push filter is sound: a config is watched (PushFilter.Watches)
 if and only if no push it turns away changes what is ingested.
*/
module FilterExact {
  import opened Wrappers
  import opened Paths
  import opened Repo
  import opened Fetch
  import opened Pages
  import opened Ingest
  import opened PushFilter

  ghost predicate TotalOrder(less: (Path, Path) -> bool) {
    StrictOrder(less) && forall p, q :: p == q || less(p, q) || less(q, p)
  }

  /** A push to the default branch from t1 to t2, turned away on the row that ingesting cfg left. */
  ghost predicate TurnedAway(
    r: Readers, cfg: Config, row: RepoRow, less: (Path, Path) -> bool, push: Push, t1: seq<Entry>, t2: seq<Entry>)
  {
    && WellFormed(t1) && WellFormed(t2) && Sorted(t1, less) && Sorted(t2, less)
    && push.ref == "refs/heads/" + push.defaultBranch && !ShouldIngest(push, row)
    && (forall p | Find(t1, p) != Find(t2, p) :: Changed(push, p))
    && ConfigOf(r, t1) == Some(cfg) && Agree(HintsOf(r, t1), cfg) && Reflects(row, cfg)
  }

  /** No push turned away changes what is ingested. */
  ghost predicate Sound(r: Readers, cfg: Config, less: (Path, Path) -> bool) {
    forall row, push, t1, t2, h1, h2 | TurnedAway(r, cfg, row, less, push, t1, t2) ::
      SameButHead(Ingested(r, h1, push.defaultBranch, t1), Ingested(r, h2, push.defaultBranch, t2))
  }

  lemma WatchedIsSound(r: Readers, cfg: Config, less: (Path, Path) -> bool)
    requires StrictOrder(less) && Watches(cfg)
    ensures Sound(r, cfg, less)
  {
    forall row, push, t1, t2, h1: string, h2: string | TurnedAway(r, cfg, row, less, push, t1, t2)
      ensures SameButHead(Ingested(r, h1, push.defaultBranch, t1), Ingested(r, h2, push.defaultBranch, t2))
    {
      FilteredPushChangesNothing(r, push, row, cfg, h1, h2, push.defaultBranch, t1, t2, less);
    }
  }

  // ---- a name nothing mentions ----

  function Repeat(n: nat): (s: string)
    ensures |s| == n && forall i | 0 <= i < n :: s[i] == 'a'
  {
    seq(n, i => 'a')
  }

  /** A docz file name of n + 5 characters. */
  function DoczName(n: nat): string {
    "0-" + Repeat(n) + ".md"
  }

  lemma DoczNameIsOne(n: nat)
    ensures var name := DoczName(n);
      && |name| == n + 5 && IsDoczFile(name) && '/' !in name && Segment(name) && HasSuffix(name, ".md")
      && name != INDEX_NAME && name != README_NAME && name != TEMPLATES_DIR && name != ".docz.yaml"
      && forall i | 0 <= i < |name| :: SafeChar(name[i])
  {
    var name := DoczName(n);
    assert name[0] == '0' && name[1] == '-' && name[..1] == "0";
    assert name[|name| - 3..] == ".md";
    assert forall i | 0 <= i < |name| :: name[i] in "0-a.md";
  }

  /** The longest last segment of the paths. */
  function Longest(paths: seq<Path>): (n: nat)
    ensures forall p | p in paths && p != [] :: |Base(p)| <= n
  {
    if paths == [] then 0
    else
      var n := Longest(paths[1..]);
      if paths[0] != [] && |Base(paths[0])| > n then |Base(paths[0])| else n
  }

  /** A docz file name that none of the paths ends in. */
  function FreshName(paths: seq<Path>): (name: string)
    ensures IsDoczFile(name) && '/' !in name && Segment(name) && HasSuffix(name, ".md")
    ensures name != INDEX_NAME && name != README_NAME && name != TEMPLATES_DIR && name != ".docz.yaml"
    ensures forall i | 0 <= i < |name| :: SafeChar(name[i])
    ensures forall dir: Path :: dir + [name] !in paths
  {
    var n := Longest(paths);
    DoczNameIsOne(n);
    assert forall dir: Path :: Base(dir + [DoczName(n)]) == DoczName(n);
    DoczName(n)
  }

  // ---- two trees ----

  function Config0(c: string): Entry {
    Entry(CONFIG_FILE, true, c)
  }

  /** The .docz.yaml and one more file, in order. */
  function Two(less: (Path, Path) -> bool, c: string, e: Entry): seq<Entry> {
    if less(CONFIG_FILE, e.path) then [Config0(c), e] else [e, Config0(c)]
  }

  lemma OneIsWellFormed(c: string, less: (Path, Path) -> bool)
    ensures WellFormed([Config0(c)]) && Sorted([Config0(c)], less)
  {
  }

  lemma TwoIsWellFormed(less: (Path, Path) -> bool, c: string, e: Entry)
    requires TotalOrder(less) && e.isBlob && Clean(e.path) && e.path != CONFIG_FILE && !Under(e.path, CONFIG_FILE)
    ensures WellFormed(Two(less, c, e)) && Sorted(Two(less, c, e), less)
  {
    assert |CONFIG_FILE| == 1 && Clean(CONFIG_FILE);
    assert !Under(CONFIG_FILE, e.path) && !Under(e.path, e.path) && !Under(CONFIG_FILE, CONFIG_FILE);
    hide Clean, Under;
  }

  lemma CanBeHeld(dir: Path, name: string)
    requires CanHold(dir) && Segment(name) && name != ".docz.yaml"
    ensures var p := dir + [name]; Clean(p) && p != CONFIG_FILE && !Under(p, CONFIG_FILE) && Dir(p) == dir && Base(p) == name
  {
    var p := dir + [name];
    assert p[|p| - 1] == name;
    assert CONFIG_FILE < p ==> CONFIG_FILE <= dir;
  }

  lemma FindInOne(a: Entry, q: Path)
    ensures Find([a], q) == if a.isBlob && a.path == q then Some(a.sha) else None
  {
    assert [a][1..] == [];
  }

  lemma FindInTwo(less: (Path, Path) -> bool, c: string, e: Entry, q: Path)
    requires e.isBlob && e.path != CONFIG_FILE
    ensures Find(Two(less, c, e), q) == (if q == CONFIG_FILE then Some(c) else if q == e.path then Some(e.sha) else None)
    ensures Find([Config0(c)], q) == if q == CONFIG_FILE then Some(c) else None
  {
    var a, b := Config0(c), e;
    FindInOne(a, q);
    FindInOne(b, q);
    assert [a, b][1..] == [b] && [b, a][1..] == [a];
    assert Find([a, b], q) == if a.path == q then Some(a.sha) else Find([b], q);
    assert Find([b, a], q) == if b.path == q then Some(b.sha) else Find([a], q);
  }

  lemma ClassifiedOne(a: Entry, dir: Path, apiEnabled: bool)
    ensures Classified([a], dir, apiEnabled) == if Wanted(a, dir, apiEnabled) then [a] else []
  {
    assert [a][1..] == [];
  }

  lemma ClassifiedTwo(less: (Path, Path) -> bool, c: string, e: Entry, dir: Path, apiEnabled: bool)
    ensures Classified(Two(less, c, e), dir, apiEnabled) == if Wanted(e, dir, apiEnabled) then [e] else []
    ensures Classified([Config0(c)], dir, apiEnabled) == []
  {
    ConfigIsNotMarkdown();
    hide Wanted, Classified;
    ClassifiedOne(Config0(c), dir, apiEnabled);
    ClassifiedOne(e, dir, apiEnabled);
    ClassifiedAppend([Config0(c)], [e], dir, apiEnabled);
    ClassifiedAppend([e], [Config0(c)], dir, apiEnabled);
    assert [Config0(c)] + [e] == [Config0(c), e] && [e] + [Config0(c)] == [e, Config0(c)];
  }

  lemma ConfigIsNotMarkdown()
    ensures !IsMarkdown(CONFIG_FILE)
    ensures forall c, dir, apiEnabled :: !Wanted(Config0(c), dir, apiEnabled)
  {
    assert Base(CONFIG_FILE) == ".docz.yaml" && ".docz.yaml"[7..] == "aml";
  }

  // ---- what the second tree adds ----

  lemma {:induction false} NoneAdditional(tree: seq<Entry>, entries: seq<Path>, contents: string -> string)
    requires forall q | q in entries :: IsMarkdown(q) ==> Find(tree, q).None?
    ensures Additional(tree, entries, contents) == []
  {
    if entries != [] {
      assert entries[0] in entries;
      NoneAdditional(tree, entries[1..], contents);
    }
  }

  /** The config's file alone is fetched with no blobs, and ingests. */
  lemma OneIngests(r: Readers, cfg: Config, head: string, branch: string, c: string)
    requires r.parse(r.contents(c)) == Some(cfg) && Agree(r.hints(r.contents(c)), cfg)
    ensures Fetched(r, head, branch, [Config0(c)]).Some? && Fetched(r, head, branch, [Config0(c)]).value.blobs == []
    ensures ConfigOf(r, [Config0(c)]) == Some(cfg)
    ensures Ingested(r, head, branch, [Config0(c)]).Some?
    ensures var input := Ingested(r, head, branch, [Config0(c)]).value; input.documents == [] && input.pages == []
  {
    var tree := [Config0(c)];
    var h := r.hints(r.contents(c));
    forall q ensures Find(tree, q) == if q == CONFIG_FILE then Some(c) else None {
      FindInOne(Config0(c), q);
    }
    ConfigIsNotMarkdown();
    ClassifiedOne(Config0(c), h.dir, h.apiEnabled);
    if h.apiEnabled {
      NoneAdditional(tree, h.additionalDocs, r.contents);
    }
    hide Wanted, Classified, Find;
    NoPages(r, cfg);
  }

  lemma {:induction false} NoExtraPages(r: Readers, docs: seq<Page>, entries: seq<Path>)
    ensures ExtraPages(r, docs, [], entries) == []
  {
    if entries != [] {
      NoExtraPages(r, docs, entries[1..]);
    }
  }

  lemma NoPages(r: Readers, cfg: Config)
    ensures Build(r, cfg, []) == []
  {
    NoExtraPages(r, [], cfg.additionalDocs);
  }

  /** What is fetched of two files when the second is not watched. */
  lemma TwoFetched(r: Readers, cfg: Config, row: RepoRow, less: (Path, Path) -> bool, head: string, branch: string, c: string, e: Entry)
    requires r.parse(r.contents(c)) == Some(cfg) && Agree(r.hints(r.contents(c)), cfg) && Reflects(row, cfg)
    requires e.isBlob && e.path != CONFIG_FILE && e.path !in Watched(row)
    ensures var f := Fetched(r, head, branch, Two(less, c, e));
      && f.Some? && f.value.config == r.contents(c)
      && f.value.blobs == (if Wanted(e, cfg.dir, cfg.apiEnabled) then [Blob(e.path, e.sha, r.contents(e.sha))] else [])
      && (!cfg.apiEnabled && e.path == cfg.dir + [INDEX_NAME] ==> f.value.index.Some?)
  {
    var tree := Two(less, c, e);
    var h := r.hints(r.contents(c));
    forall q ensures Find(tree, q) == if q == CONFIG_FILE then Some(c) else if q == e.path then Some(e.sha) else None {
      FindInTwo(less, c, e, q);
    }
    ConfigIsNotMarkdown();
    ClassifiedTwo(less, c, e, h.dir, h.apiEnabled);
    if h.apiEnabled {
      assert forall q | q in h.additionalDocs :: q in Watched(row);
      NoneAdditional(tree, h.additionalDocs, r.contents);
    }
    assert Blobs([e], r.contents) == [Blob(e.path, e.sha, r.contents(e.sha))];
    hide Wanted, Classified, Find, Two;
  }

  /** What of the ingest comes from what of the fetch. */
  lemma IngestedFrom(r: Readers, cfg: Config, tree: seq<Entry>)
    requires Fetched(r, "", "", tree).Some? && r.parse(Fetched(r, "", "", tree).value.config) == Some(cfg)
    ensures var f := Fetched(r, "", "", tree).value;
      var input := Ingested(r, "", "", tree);
      && (input.Some? <==> Documents(r, cfg, f.blobs).Some?)
      && (input.Some? ==>
            && input.value.documents == Documents(r, cfg, f.blobs).value
            && input.value.pages == Build(r, cfg, f.blobs)
            && input.value.index == f.index)
  {
    hide Fetched, Documents, Build;
  }

  /** With the file at p turned away, a sound filter would have to ingest both trees alike. */
  lemma SoundMeansSame(r: Readers, cfg: Config, row: RepoRow, less: (Path, Path) -> bool, c: string, dir: Path, name: string, sha: string)
    requires TotalOrder(less) && r.parse(r.contents(c)) == Some(cfg) && Agree(r.hints(r.contents(c)), cfg) && Reflects(row, cfg)
    requires CanHold(dir) && Segment(name) && name != ".docz.yaml" && dir + [name] !in Watched(row) && !Covers(cfg.docsDir, dir)
    requires Sound(r, cfg, less)
    ensures SameButHead(Ingested(r, "", "", [Config0(c)]), Ingested(r, "", "", Two(less, c, Entry(dir + [name], true, sha))))
  {
    var p, e := dir + [name], Entry(dir + [name], true, sha);
    var t1, t2, push := [Config0(c)], Two(less, c, e), Adding(p, "");
    CanBeHeld(dir, name);
    TwoIsWellFormed(less, c, e);
    OneIsWellFormed(c, less);
    OneIngests(r, cfg, "", "", c);
    UncoveredDoesNotTrigger(row, dir, name);
    forall q | Find(t1, q) != Find(t2, q) ensures Changed(push, q) {
      FindInTwo(less, c, e, q);
      assert Touches(push.commits[0], p);
    }
    assert HintsOf(r, t1) == r.hints(r.contents(c)) by { FindInOne(Config0(c), CONFIG_FILE); }
    assert TurnedAway(r, cfg, row, less, push, t1, t2) by { hide Sound, Ingested; }
    hide TurnedAway, Ingested, SameButHead;
    assert push.defaultBranch == "";
  }

  /** The row that ingesting cfg leaves. */
  function RowFor(cfg: Config): RepoRow {
    RepoRow(cfg.docsDir,
            if cfg.changelogEnabled then Some(cfg.changelogFile) else None,
            if cfg.apiEnabled then Some(cfg.landingPage) else None,
            if cfg.apiEnabled then cfg.additionalDocs else [])
  }

  // ---- each condition is needed ----

  lemma NewDocument(r: Readers, cfg: Config, b: Blob)
    requires b.path != [] && TypeAt(cfg.types, Dir(b.path)).Some? && r.front(b.content).Front?
    ensures Documents(r, cfg, [b]).Some? && Documents(r, cfg, [b]).value != []
  {
    DocumentsOfOne(r, cfg, b);
  }

  lemma DocumentsDiffer(r: Readers, cfg: Config, less: (Path, Path) -> bool, c: string, d: string, td: Path, name: string)
    requires r.parse(r.contents(c)) == Some(cfg) && Agree(r.hints(r.contents(c)), cfg)
    requires r.front(r.contents(d)).Front? && CanHold(td) && TypeAt(cfg.types, td).Some?
    requires IsDoczFile(name) && Segment(name) && name != ".docz.yaml" && td + [name] !in Watched(RowFor(cfg))
    ensures !SameButHead(Ingested(r, "", "", [Config0(c)]), Ingested(r, "", "", Two(less, c, Entry(td + [name], true, d))))
  {
    hide Ingested, Fetched, Build, Two, Documents, Watched, CanHold, IsDoczFile, Segment, TypeAt, Agree;
    var e := Entry(td + [name], true, d);
    OneIngests(r, cfg, "", "", c);
    CanBeHeld(td, name);
    TwoFetched(r, cfg, RowFor(cfg), less, "", "", c, e);
    assert Wanted(e, cfg.dir, cfg.apiEnabled) by { WantsDocument(cfg, e, name); }
    NewDocument(r, cfg, Blob(e.path, d, r.contents(d)));
    IngestedFrom(r, cfg, Two(less, c, e));
  }

  lemma WantsDocument(cfg: Config, e: Entry, name: string)
    requires e.isBlob && e.path != [] && Base(e.path) == name && IsDoczFile(name)
    ensures Wanted(e, cfg.dir, cfg.apiEnabled)
  {
  }

  /** A type directory not covered: a new document there is missed. */
  lemma UncoveredTypeIsUnsound(r: Readers, cfg: Config, less: (Path, Path) -> bool, c: string, d: string, i: nat)
    requires TotalOrder(less) && r.parse(r.contents(c)) == Some(cfg) && Agree(r.hints(r.contents(c)), cfg)
    requires r.front(r.contents(d)).Front?
    requires i < |cfg.types| && CanHold(cfg.types[i].dir) && !Covers(cfg.docsDir, cfg.types[i].dir)
    ensures !Sound(r, cfg, less)
  {
    hide Sound, Ingested, SameButHead, Covers, CanHold, TotalOrder, IsDoczFile, Segment;
    var td, name := cfg.types[i].dir, FreshName(Watched(RowFor(cfg)));
    TypeAtIsIn(cfg.types, td);
    DocumentsDiffer(r, cfg, less, c, d, td, name);
    if Sound(r, cfg, less) {
      SoundMeansSame(r, cfg, RowFor(cfg), less, c, td, name, d);
    }
  }

  lemma NewPage(r: Readers, cfg: Config, name: string, sha: string)
    requires cfg.apiEnabled && cfg.dir != [] && [] !in cfg.exclude && [name] !in cfg.exclude
    requires Segment(name) && HasSuffix(name, ".md") && name != TEMPLATES_DIR && forall i | 0 <= i < |name| :: SafeChar(name[i])
    requires cfg.dir + [name] != cfg.landingPage
    requires forall i | 0 <= i < |cfg.types| :: !Under(cfg.dir + [name], cfg.types[i].dir)
    ensures Build(r, cfg, [Blob(cfg.dir + [name], sha, r.contents(sha))]) != []
  {
    var p := cfg.dir + [name];
    var b := Blob(p, sha, r.contents(sha));
    var readmes := ReadmeDirs(cfg, [b]);
    assert Base(p) == name && Rel(p, cfg.dir) == [name];
    assert !Excluded(cfg, p) by {
      NotExcluded(cfg, name);
    }
    assert Published(cfg, readmes, p) == Some([name]);
    assert PageOf(r, cfg, readmes, b) == [Row(r, b, [name])];
    assert DocsPages(r, cfg, readmes, [b])[0] == Row(r, b, [name]);
  }

  lemma NotExcluded(cfg: Config, name: string)
    requires cfg.dir != [] && [] !in cfg.exclude && [name] !in cfg.exclude && name != TEMPLATES_DIR
    ensures !Excluded(cfg, cfg.dir + [name])
  {
    var p, prefixes := cfg.dir + [name], ExcludePrefixes(cfg);
    forall i | 0 <= i < |prefixes| ensures p != prefixes[i] && !Under(p, prefixes[i]) {
      var rest := if i == 0 then [TEMPLATES_DIR] else cfg.exclude[i - 1];
      assert prefixes[i] == cfg.dir + rest;
      assert rest == prefixes[i][|cfg.dir|..] && p[|cfg.dir|..] == [name];
    }
  }

  /** What covers a directory covers the directories in it. */
  lemma CoversBelow(raw: string, td: Path, dir: Path)
    requires td != [] && td <= dir && CanHold(dir)
    ensures CanHold(td) && (Covers(raw, td) ==> Covers(raw, dir))
  {
    assert forall j | 0 <= j < |td| :: td[j] == dir[j];
    assert Clean(td) && (CONFIG_FILE <= td ==> CONFIG_FILE <= dir);
    if td != dir {
      UnderIsPrefix(dir, td);
      var a, b, q := Text(td) + "/", Text(dir), raw + "/";
      if q <= a {
        assert q == a[..|q|] == b[..|q|] == (b + "/")[..|q|];
      }
    }
  }

  lemma AboveDocsDir(cfg: Config, name: string, i: nat)
    requires i < |cfg.types| && CanHold(cfg.dir) && !Covers(cfg.docsDir, cfg.dir)
    requires CanHold(cfg.types[i].dir) ==> Covers(cfg.docsDir, cfg.types[i].dir)
    ensures !Under(cfg.dir + [name], cfg.types[i].dir)
  {
    var td, p := cfg.types[i].dir, cfg.dir + [name];
    if td != [] && td <= cfg.dir {
      CoversBelow(cfg.docsDir, td, cfg.dir);
    }
    assert td < p ==> td <= cfg.dir;
  }

  lemma PagesDiffer(r: Readers, cfg: Config, less: (Path, Path) -> bool, c: string, name: string)
    requires r.parse(r.contents(c)) == Some(cfg) && Agree(r.hints(r.contents(c)), cfg)
    requires forall i | 0 <= i < |cfg.types| && CanHold(cfg.types[i].dir) :: Covers(cfg.docsDir, cfg.types[i].dir)
    requires cfg.apiEnabled && CanHold(cfg.dir) && cfg.dir != [] && [] !in cfg.exclude && !Covers(cfg.docsDir, cfg.dir)
    requires IsDoczFile(name) && Segment(name) && HasSuffix(name, ".md") && name != TEMPLATES_DIR && name != ".docz.yaml"
    requires forall i | 0 <= i < |name| :: SafeChar(name[i])
    requires cfg.dir + [name] !in Watched(RowFor(cfg)) && [name] !in cfg.exclude
    ensures !SameButHead(Ingested(r, "", "", [Config0(c)]), Ingested(r, "", "", Two(less, c, Entry(cfg.dir + [name], true, c))))
  {
    hide Ingested, Fetched, Build, Two, Documents, Watched, Covers, IsDoczFile, Segment, Agree;
    var p, e := cfg.dir + [name], Entry(cfg.dir + [name], true, c);
    OneIngests(r, cfg, "", "", c);
    CanBeHeld(cfg.dir, name);
    TwoFetched(r, cfg, RowFor(cfg), less, "", "", c, e);
    assert Wanted(e, cfg.dir, cfg.apiEnabled) by { WantsDocument(cfg, e, name); }
    forall i | 0 <= i < |cfg.types| ensures !Under(p, cfg.types[i].dir) {
      AboveDocsDir(cfg, name, i);
    }
    LandingIsWatched(cfg);
    NewPage(r, cfg, name, c);
    IngestedFrom(r, cfg, Two(less, c, e));
  }

  lemma LandingIsWatched(cfg: Config)
    ensures cfg.apiEnabled && cfg.landingPage != [] ==> cfg.landingPage in Watched(RowFor(cfg))
  {
  }

  /** A published docs_dir not covered: a new page there is missed. */
  lemma UncoveredDocsDirIsUnsound(r: Readers, cfg: Config, less: (Path, Path) -> bool, c: string)
    requires TotalOrder(less) && r.parse(r.contents(c)) == Some(cfg) && Agree(r.hints(r.contents(c)), cfg)
    requires forall i | 0 <= i < |cfg.types| && CanHold(cfg.types[i].dir) :: Covers(cfg.docsDir, cfg.types[i].dir)
    requires cfg.apiEnabled && CanHold(cfg.dir) && cfg.dir != [] && [] !in cfg.exclude && !Covers(cfg.docsDir, cfg.dir)
    ensures !Sound(r, cfg, less)
  {
    hide Sound, Ingested, SameButHead, Covers, CanHold, TotalOrder, IsDoczFile, Segment;
    var watched := Watched(RowFor(cfg));
    var name := FreshName(watched + cfg.exclude);
    assert cfg.dir + [name] !in watched + cfg.exclude && [] + [name] !in watched + cfg.exclude;
    assert [] + [name] == [name];
    PagesDiffer(r, cfg, less, c, name);
    if Sound(r, cfg, less) {
      SoundMeansSame(r, cfg, RowFor(cfg), less, c, cfg.dir, name, c);
    }
  }

  lemma IndexesDiffer(r: Readers, cfg: Config, less: (Path, Path) -> bool, c: string)
    requires r.parse(r.contents(c)) == Some(cfg) && Agree(r.hints(r.contents(c)), cfg)
    requires !cfg.apiEnabled && CanHold(cfg.dir)
    requires !(cfg.changelogEnabled && cfg.changelogFile == cfg.dir + [INDEX_NAME])
    ensures cfg.dir + [INDEX_NAME] !in Watched(RowFor(cfg))
    ensures !SameButHead(Ingested(r, "", "", [Config0(c)]), Ingested(r, "", "", Two(less, c, Entry(cfg.dir + [INDEX_NAME], true, c))))
  {
    hide Ingested, Fetched, Build, Two, Documents, CanHold, Agree, Wanted;
    var e := Entry(cfg.dir + [INDEX_NAME], true, c);
    OneIngests(r, cfg, "", "", c);
    OneHasNoIndex(r, cfg, c);
    CanBeHeld(cfg.dir, INDEX_NAME);
    TwoFetched(r, cfg, RowFor(cfg), less, "", "", c, e);
    IngestedFrom(r, cfg, [Config0(c)]);
    IngestedFrom(r, cfg, Two(less, c, e));
  }

  lemma OneHasNoIndex(r: Readers, cfg: Config, c: string)
    requires r.parse(r.contents(c)) == Some(cfg) && Agree(r.hints(r.contents(c)), cfg) && !cfg.apiEnabled
    ensures var f := Fetched(r, "", "", [Config0(c)]); f.Some? && f.value.config == r.contents(c) && f.value.index.None?
  {
    var p := cfg.dir + [INDEX_NAME];
    assert p[|p| - 1] == INDEX_NAME;
    FindInOne(Config0(c), CONFIG_FILE);
    FindInOne(Config0(c), p);
    hide Find, Blobs, Classified;
  }

  /** With the api block dormant, docs_dir/index.md is the repository's home: uncovered and unwatched, a new one is missed. */
  lemma UncoveredIndexIsUnsound(r: Readers, cfg: Config, less: (Path, Path) -> bool, c: string)
    requires TotalOrder(less) && r.parse(r.contents(c)) == Some(cfg) && Agree(r.hints(r.contents(c)), cfg)
    requires !cfg.apiEnabled && CanHold(cfg.dir) && !Covers(cfg.docsDir, cfg.dir)
    requires !(cfg.changelogEnabled && cfg.changelogFile == cfg.dir + [INDEX_NAME])
    ensures !Sound(r, cfg, less)
  {
    hide Sound, Ingested, SameButHead, Covers, CanHold, TotalOrder;
    IndexesDiffer(r, cfg, less, c);
    if Sound(r, cfg, less) {
      SoundMeansSame(r, cfg, RowFor(cfg), less, c, cfg.dir, INDEX_NAME, c);
    }
  }

  /**
   Over all pushes and trees, a push turned away leaves what is ingested as it
   was if and only if the config is watched: a condition on docs_dir as
   written and the directories it and the types resolve to. Some file has to
   read as this config, and some as a document.
  */
  lemma SoundIffWatched(r: Readers, cfg: Config, less: (Path, Path) -> bool, c: string, d: string)
    requires TotalOrder(less) && r.parse(r.contents(c)) == Some(cfg) && Agree(r.hints(r.contents(c)), cfg)
    requires r.front(r.contents(d)).Front?
    ensures Sound(r, cfg, less) <==> Watches(cfg)
  {
    if Watches(cfg) {
      WatchedIsSound(r, cfg, less);
    } else if i :| 0 <= i < |cfg.types| && CanHold(cfg.types[i].dir) && !Covers(cfg.docsDir, cfg.types[i].dir) {
      UncoveredTypeIsUnsound(r, cfg, less, c, d, i);
    } else if cfg.apiEnabled {
      UncoveredDocsDirIsUnsound(r, cfg, less, c);
    } else {
      UncoveredIndexIsUnsound(r, cfg, less, c);
    }
  }

  // ---- which configs are watched ----

  /** docs_dir in normal form with the type directories in or under it is watched. */
  lemma NormalFormIsWatched(cfg: Config)
    requires Clean(cfg.dir) && cfg.docsDir == Text(cfg.dir)
    requires forall i | 0 <= i < |cfg.types| :: cfg.dir <= cfg.types[i].dir
    ensures Watches(cfg)
  {
    forall i | 0 <= i < |cfg.types| && CanHold(cfg.types[i].dir) ensures Covers(cfg.docsDir, cfg.types[i].dir) {
      var td := cfg.types[i].dir;
      if td != cfg.dir {
        UnderIsPrefix(td, cfg.dir);
        var a, b := Text(td), Text(cfg.dir) + "/";
        assert b == a[..|b|] == (a + "/")[..|b|];
      }
    }
  }

  /** docs_dir written as raw and resolved to dir, and one type's directory as resolved. */
  predicate Written(cfg: Config, raw: string, dir: Path, td: Path) {
    cfg.docsDir == raw && cfg.dir == dir && cfg.types == [TypeDir("adr", td)]
  }

  /** The types of "./docs" and "docs/", and a type directory "../x" of "docs", are not covered. */
  lemma NotCoveredExamples(cfg: Config)
    requires Written(cfg, "./docs", ["docs"], ["docs", "adr"]) || Written(cfg, "docs/", ["docs"], ["docs", "adr"])
      || Written(cfg, "docs", ["docs"], ["x"])
    ensures !Watches(cfg)
  {
    var td := cfg.types[0].dir;
    assert CONFIG_FILE[0] == ".docz.yaml" && td[0] != ".docz.yaml";
    assert Clean(td);
    assert ["docs", "adr"][1..] == ["adr"] && Text(["adr"]) == "adr";
    assert Text(["docs", "adr"]) == "docs/adr" && Text(["x"]) == "x";
    assert ("./docs" + "/")[0] == '.' && ("docs/adr" + "/")[0] == 'd';
    assert ("docs/" + "/")[5] == '/' && ("docs/adr" + "/")[5] == 'a';
    assert ("docs" + "/")[0] == 'd' && ("x" + "/")[0] == 'x';
    assert !Covers(cfg.docsDir, td);
  }

  /** So with each of them a push that changes what is ingested is turned away. */
  lemma ExamplesAreUnsound(r: Readers, cfg: Config, less: (Path, Path) -> bool, c: string, d: string)
    requires TotalOrder(less) && r.parse(r.contents(c)) == Some(cfg) && Agree(r.hints(r.contents(c)), cfg)
    requires r.front(r.contents(d)).Front?
    requires Written(cfg, "./docs", ["docs"], ["docs", "adr"]) || Written(cfg, "docs/", ["docs"], ["docs", "adr"])
      || Written(cfg, "docs", ["docs"], ["x"])
    ensures !Sound(r, cfg, less)
  {
    NotCoveredExamples(cfg);
    hide Watches, Sound, Written, Agree, TotalOrder;
    SoundIffWatched(r, cfg, less, c, d);
  }
}
