/**
 The page rows of an export (internal/export/service.go,
 internal/store/confluence.sql.go): a page id once recorded is never lost, also
 when a later run fails for the page and reports none.
*/
module ConfluencePages {
  import opened Wrappers

  /** A row of confluence_pages; rest stands for the columns a run always overwrites. */
  datatype PageRow = PageRow(pageID: string, url: string, rest: string)

  /** One page of an export's report. */
  datatype Reported = Reported(key: string, pageID: string, url: string, rest: string)

  type Rows = map<string, PageRow>

  /** COALESCE(NULLIF(fresh, ''), kept). */
  function Sticky(given: string, kept: string): string {
    if given == "" then kept else given
  }

  /** UpsertConfluencePage's statement. */
  function Upsert(rows: Rows, p: Reported): Rows {
    rows[p.key :=
      if p.key in rows then PageRow(Sticky(p.pageID, rows[p.key].pageID), Sticky(p.url, rows[p.key].url), p.rest)
      else PageRow(p.pageID, p.url, p.rest)]
  }

  function UpsertAll(rows: Rows, pages: seq<Reported>): Rows
    decreases |pages|
  {
    if pages == [] then rows else UpsertAll(Upsert(rows, pages[0]), pages[1..])
  }

  /** ListConfluencePageIDs: what a task loads before it exports. */
  function PageIDs(rows: Rows): map<string, string> {
    map k | k in rows && rows[k].pageID != "" :: rows[k].pageID
  }

  /** A page record writes: one with a key and either a page id or a recorded one. */
  predicate Recorded(known: map<string, string>, p: Reported) {
    p.key != "" && (p.pageID != "" || p.key in known)
  }

  function Recordable(known: map<string, string>, pages: seq<Reported>): seq<Reported> {
    if pages == [] then []
    else (if Recorded(known, pages[0]) then [pages[0]] else []) + Recordable(known, pages[1..])
  }

  // ---- the code ----

  class Pages {
    var rows: Rows

    constructor ()
      ensures rows == map[]
    {
      rows := map[];
    }

    method UpsertConfluencePage(p: Reported)
      modifies this
      ensures rows == Upsert(old(rows), p)
    {
      if p.key in rows {
        var row := rows[p.key];
        var pageID, url := row.pageID, row.url;
        if p.pageID != "" { pageID := p.pageID; }
        if p.url != "" { url := p.url; }
        rows := rows[p.key := PageRow(pageID, url, p.rest)];
      } else {
        rows := rows[p.key := PageRow(p.pageID, p.url, p.rest)];
      }
    }

    method ListConfluencePageIDs() returns (ids: map<string, string>)
      ensures ids == PageIDs(rows)
    {
      ids := map k | k in rows && rows[k].pageID != "" :: rows[k].pageID;
    }

    /** RecordConfluenceExport: one transaction, a row for each page. */
    method RecordConfluenceExport(pages: seq<Reported>)
      modifies this
      ensures rows == UpsertAll(old(rows), pages)
    {
      for i := 0 to |pages|
        invariant UpsertAll(old(rows), pages) == UpsertAll(rows, pages[i..])
      {
        assert pages[i..][1..] == pages[i + 1..];
        UpsertConfluencePage(pages[i]);
      }
    }

    /** record: the pages worth a row, then the writes. */
    method Record(known: map<string, string>, report: seq<Reported>)
      modifies this
      ensures rows == UpsertAll(old(rows), Recordable(known, report))
    {
      var pages: seq<Reported> := [];
      for i := 0 to |report|
        invariant rows == old(rows) && pages == Recordable(known, report[..i])
      {
        RecordableNext(known, report, i);
        var p := report[i];
        if p.key == "" {
          continue;
        }
        if p.pageID == "" && p.key !in known {
          continue;
        }
        pages := pages + [p];
      }
      assert report[..|report|] == report;
      RecordConfluenceExport(pages);
    }
  }

  lemma RecordableNext(known: map<string, string>, report: seq<Reported>, i: nat)
    requires i < |report|
    ensures Recordable(known, report[..i + 1]) ==
      Recordable(known, report[..i]) + if Recorded(known, report[i]) then [report[i]] else []
  {
    assert report[..i + 1] == report[..i] + [report[i]];
    RecordableSplits(known, report[..i], [report[i]]);
    assert Recordable(known, [report[i]]) == if Recorded(known, report[i]) then [report[i]] else [];
  }

  lemma {:induction false} RecordableSplits(known: map<string, string>, a: seq<Reported>, b: seq<Reported>)
    ensures Recordable(known, a + b) == Recordable(known, a) + Recordable(known, b)
  {
    if a == [] {
      assert a + b == b;
    } else {
      assert (a + b)[0] == a[0] && (a + b)[1..] == a[1..] + b;
      RecordableSplits(known, a[1..], b);
    }
  }

  // ---- any sequence of runs ----

  /** Tasks load the page ids and later record what they did; loads and records of several may mix. */
  datatype Event = Load(task: nat) | Record(task: nat, report: seq<Reported>)

  datatype State = State(rows: Rows, loaded: map<nat, map<string, string>>)

  function Do(s: State, e: Event): State {
    match e
    case Load(task) => s.(loaded := s.loaded[task := PageIDs(s.rows)])
    case Record(task, report) =>
      if task !in s.loaded then s
      else s.(rows := UpsertAll(s.rows, Recordable(s.loaded[task], report)))
  }

  function Run(s: State, events: seq<Event>): State
    decreases |events|
  {
    if events == [] then s else Run(Do(s, events[0]), events[1..])
  }

  /** Every row has a page id, and what a task knows is still there. */
  ghost predicate Inv(s: State) {
    && (forall k | k in s.rows :: s.rows[k].pageID != "")
    && (forall t, k | t in s.loaded && k in s.loaded[t] :: k in s.rows)
  }

  /** Keys stay, and a page id changes only to another one. */
  ghost predicate Keeps(a: Rows, b: Rows) {
    forall k | k in a :: k in b && (a[k].pageID != "" ==> b[k].pageID != "")
  }

  lemma {:induction false} UpsertAllKeeps(rows: Rows, pages: seq<Reported>)
    requires forall k | k in rows :: rows[k].pageID != ""
    requires forall i | 0 <= i < |pages| :: pages[i].pageID != "" || pages[i].key in rows
    ensures Keeps(rows, UpsertAll(rows, pages)) && forall k | k in UpsertAll(rows, pages) :: UpsertAll(rows, pages)[k].pageID != ""
    decreases |pages|
  {
    if pages != [] {
      assert forall i | 0 <= i < |pages[1..]| :: pages[1..][i] == pages[i + 1];
      UpsertAllKeeps(Upsert(rows, pages[0]), pages[1..]);
    }
  }

  lemma {:induction false} RecordableAre(known: map<string, string>, pages: seq<Reported>)
    ensures forall i | 0 <= i < |Recordable(known, pages)| :: Recorded(known, Recordable(known, pages)[i])
  {
    if pages != [] {
      RecordableAre(known, pages[1..]);
    }
  }

  lemma DoKeeps(s: State, e: Event)
    requires Inv(s)
    ensures Inv(Do(s, e)) && Keeps(s.rows, Do(s, e).rows)
  {
    if e.Record? && e.task in s.loaded {
      RecordableAre(s.loaded[e.task], e.report);
      UpsertAllKeeps(s.rows, Recordable(s.loaded[e.task], e.report));
    }
  }

  /**
   Over any sequence of runs every row has a page id, a recorded key never
   disappears, and its page id only ever gives way to another.
  */
  lemma {:induction false} PageIDsAreSticky(s: State, events: seq<Event>)
    requires Inv(s)
    ensures Inv(Run(s, events)) && Keeps(s.rows, Run(s, events).rows)
    decreases |events|
  {
    if events != [] {
      DoKeeps(s, events[0]);
      PageIDsAreSticky(Do(s, events[0]), events[1..]);
    }
  }

  /** A page id that changed is one a run reported for that key. */
  lemma {:induction false} PageIDComesFromReport(rows: Rows, pages: seq<Reported>, k: string)
    requires k in rows && k in UpsertAll(rows, pages) && UpsertAll(rows, pages)[k].pageID != rows[k].pageID
    ensures exists i :: 0 <= i < |pages| && pages[i].key == k && pages[i].pageID == UpsertAll(rows, pages)[k].pageID
    decreases |pages|
  {
    var next := Upsert(rows, pages[0]);
    if UpsertAll(rows, pages)[k].pageID == next[k].pageID {
      assert pages[0].key == k && pages[0].pageID == next[k].pageID;
    } else {
      PageIDComesFromReport(next, pages[1..], k);
      var i :| 0 <= i < |pages[1..]| && pages[1..][i].key == k && pages[1..][i].pageID == UpsertAll(rows, pages)[k].pageID;
      assert pages[i + 1] == pages[1..][i];
    }
  }

  /** A page id that a run reports last for a key is the key's, whatever was recorded; so is a link. */
  lemma {:induction false} LastReportedWins(rows: Rows, pages: seq<Reported>, i: nat)
    requires i < |pages|
    ensures var k, after := pages[i].key, UpsertAll(rows, pages);
      && k in after
      && (pages[i].pageID != "" && (forall j | i < j < |pages| && pages[j].key == k :: pages[j].pageID == "") ==>
            after[k].pageID == pages[i].pageID)
      && (pages[i].url != "" && (forall j | i < j < |pages| && pages[j].key == k :: pages[j].url == "") ==>
            after[k].url == pages[i].url)
      && ((forall j | i < j < |pages| :: pages[j].key != k) ==> after[k].rest == pages[i].rest)
    decreases |pages|
  {
    var next, rest := Upsert(rows, pages[0]), pages[1..];
    assert forall j | 0 <= j < |rest| :: rest[j] == pages[j + 1];
    if i > 0 {
      LastReportedWins(next, rest, i - 1);
    } else {
      UnreportedStays(next, rest, pages[0].key);
    }
  }

  /** A run that reports no id, no link or nothing at all for a key leaves that of its row. */
  lemma {:induction false} UnreportedStays(rows: Rows, pages: seq<Reported>, k: string)
    requires k in rows
    ensures var after := UpsertAll(rows, pages);
      && k in after
      && ((forall j | 0 <= j < |pages| && pages[j].key == k :: pages[j].pageID == "") ==> after[k].pageID == rows[k].pageID)
      && ((forall j | 0 <= j < |pages| && pages[j].key == k :: pages[j].url == "") ==> after[k].url == rows[k].url)
      && ((forall j | 0 <= j < |pages| :: pages[j].key != k) ==> after[k] == rows[k])
    decreases |pages|
  {
    if pages != [] {
      var rest := pages[1..];
      assert forall j | 0 <= j < |rest| :: rest[j] == pages[j + 1];
      UnreportedStays(Upsert(rows, pages[0]), rest, k);
    }
  }

  /** A run records exactly the pages that have a key and an id, their own or one it loaded. */
  lemma {:induction false} RecordableIff(known: map<string, string>, pages: seq<Reported>, p: Reported)
    ensures p in Recordable(known, pages) <==> p in pages && p.key != "" && (p.pageID != "" || p.key in known)
  {
    if pages != [] {
      RecordableIff(known, pages[1..], p);
    }
  }

  /**
   A task that records what it loaded for: each page it reports with a key, and
   with an id or a row that has one, ends up in the key's row, with what the
   last report of the key says.
  */
  lemma ReportedPageIsRecorded(s: State, task: nat, report: seq<Reported>, i: nat)
    requires i < |report| && report[i].key != ""
    requires forall j | i < j < |report| :: report[j].key != report[i].key
    requires report[i].pageID != "" || (report[i].key in s.rows && s.rows[report[i].key].pageID != "")
    ensures var p, after := report[i], Do(Do(s, Load(task)), Record(task, report)).rows;
      && p.key in after && after[p.key].rest == p.rest
      && (p.pageID != "" ==> after[p.key].pageID == p.pageID)
      && (p.url != "" ==> after[p.key].url == p.url)
  {
    var p, known, before, later := report[i], PageIDs(s.rows), report[..i], report[i + 1..];
    assert report == before + ([p] + later) && [p][1..] == [];
    RecordableSplits(known, before, [p] + later);
    RecordableSplits(known, [p], later);
    var a, b := Recordable(known, before), Recordable(known, later);
    var pages := Recordable(known, report);
    assert pages == a + [p] + b;
    forall j | |a| < j < |pages| ensures pages[j].key != p.key {
      assert pages[j] == b[j - |a| - 1] && pages[j] in b;
      RecordableIff(known, later, pages[j]);
    }
    LastReportedWins(s.rows, pages, |a|);
    hide Recordable, UpsertAll;
  }

  lemma EmptyInv()
    ensures Inv(State(map[], map[]))
  {
  }

  /** A run that reports no id for a known page leaves the page's id and link as they were. */
  lemma FailedPageKeepsItsLink(rows: Rows, p: Reported)
    requires p.key in rows && p.pageID == "" && p.url == ""
    ensures Upsert(rows, p)[p.key].pageID == rows[p.key].pageID && Upsert(rows, p)[p.key].url == rows[p.key].url
    ensures PageIDs(Upsert(rows, p)) == PageIDs(rows)
  {
    assert forall k | k in rows :: Upsert(rows, p)[k].pageID == rows[k].pageID;
  }
}
