/**
 The export task's rerun loop (internal/export/service.go). An export enqueued
 while one is active is coalesced onto it, so the job exports again when the
 head moved while it ran.
*/
module ExportRun {
  import opened Wrappers

  const MAX_RUNS: nat := 3

  datatype Status = Disabled | Refused | Succeeded | Partial | Failed

  datatype Sync = Sync(enabled: bool, layoutPage: bool, site: string, space: string)

  /** What a job loads: the head, the config's sync block and the repository's scopes, each None when unreadable. */
  datatype Inputs = Inputs(head: string, sync: Option<Sync>, scopes: Option<seq<string>>)

  /** How writing to Confluence ended (None when every page succeeded), and whether the record was written. */
  datatype Report = Report(failure: Option<Status>, recorded: bool)

  /** What Run returns: the last status, and whether there was an error. */
  datatype Outcome = Outcome(status: Status, error: bool) {
    predicate Exported() {
      !error && (status.Succeeded? || status.Partial?)
    }
  }

  /** What a job meets, by run: snapshots (None when one cannot be read) and reports; and the allow-list. */
  datatype World = World(load: nat -> Option<Inputs>, report: nat -> Report, allowed: (string, string) -> bool)

  const PUBLIC_READ := "public:read"
  const CONFLUENCE_WRITE := "confluence:write"

  /** exportable: the export may publish the repository. */
  predicate Exportable(scopes: Option<seq<string>>) {
    scopes.Some? && (PUBLIC_READ in scopes.value || CONFLUENCE_WRITE in scopes.value)
  }

  /** Whether an export gets as far as writing to Confluence. */
  predicate Writes(w: World, i: Inputs) {
    && i.sync.Some? && i.sync.value.enabled && !i.sync.value.layoutPage
    && w.allowed(i.sync.value.site, i.sync.value.space) && Exportable(i.scopes)
  }

  /** One export over a snapshot. */
  function Once(w: World, run: nat, i: Inputs): Outcome {
    if i.sync.None? then Outcome(Failed, true)
    else if !i.sync.value.enabled then Outcome(Disabled, false)
    else if !Writes(w, i) then Outcome(Refused, false)
    else match w.report(run).failure
      case None => Outcome(Succeeded, !w.report(run).recorded)
      case Some(status) => Outcome(status, true)
  }

  /** What a job did: the heads it exported in turn, the last head it loaded, and how it ended (None when a load failed). */
  datatype Trace = Trace(heads: seq<string>, loaded: Option<string>, ended: Option<Outcome>)

  /** A job of at most `limit` exports, from a run on, with the outcome and head of the run before. */
  function From(w: World, limit: nat, run: nat, before: Outcome, exported: string): Trace
    decreases limit + 1 - run
  {
    if run > limit then Trace([], None, Some(before))
    else match w.load(run)
      case None => Trace([], None, None)
      case Some(i) =>
        if run > 1 && i.head == exported then Trace([], Some(i.head), Some(before))
        else
          var outcome := Once(w, run, i);
          if !outcome.Exported() then Trace([i.head], Some(i.head), Some(outcome))
          else
            var rest := From(w, limit, run + 1, outcome, i.head);
            Trace([i.head] + rest.heads, if rest.loaded.Some? then rest.loaded else Some(i.head), rest.ended)
  }

  const NOT_RUN: Outcome := Outcome(Failed, false)

  function Job(w: World, limit: nat): Trace {
    From(w, limit, 1, NOT_RUN, "")
  }

  // ---- the code ----

  method RunOnce(w: World, run: nat, i: Inputs) returns (outcome: Outcome)
    ensures outcome == Once(w, run, i)
  {
    if i.sync.None? { return Outcome(Failed, true); }
    var sc := i.sync.value;
    if !sc.enabled { return Outcome(Disabled, false); }
    if sc.layoutPage { return Outcome(Refused, false); }
    if !w.allowed(sc.site, sc.space) { return Outcome(Refused, false); }
    if !Exportable(i.scopes) { return Outcome(Refused, false); }
    var report := w.report(run);
    if report.failure.Some? { return Outcome(report.failure.value, true); }
    return Outcome(Succeeded, !report.recorded);
  }

  /** Run; the trace is what it did. */
  method Run(w: World) returns (trace: Trace)
    ensures trace == Job(w, MAX_RUNS)
  {
    hide Once, Exportable, Writes;
    var res, exported := NOT_RUN, "";
    trace := Trace([], None, None);
    for run := 1 to MAX_RUNS + 1
      invariant Job(w, MAX_RUNS) == Then(trace, From(w, MAX_RUNS, run, res, exported)) && trace.ended.None?
    {
      assert trace.heads + [] == trace.heads;
      var loaded := w.load(run);
      if loaded.None? { return; }
      var head := loaded.value.head;
      trace := trace.(loaded := Some(head));
      if run > 1 && head == exported {
        return trace.(ended := Some(res));
      }
      res := RunOnce(w, run, loaded.value);
      trace := trace.(heads := trace.heads + [head]);
      if !res.Exported() {
        return trace.(ended := Some(res));
      }
      exported := head;
    }
    return trace.(ended := Some(res));
  }

  /** What was done so far, then the rest. */
  function Then(a: Trace, b: Trace): Trace {
    Trace(a.heads + b.heads, if b.loaded.Some? then b.loaded else a.loaded, b.ended)
  }

  // ---- how it ends ----

  /**
   How an export ends: it fails without a readable config, does nothing where
   the config does not ask for it, is refused a page layout, a space that is not
   allowed and a repository whose scopes permit neither reading by anyone nor
   writing, and otherwise ends as the writing and then the recording do.
  */
  lemma OnceEnds(w: World, run: nat, i: Inputs)
    ensures var o := Once(w, run, i);
      match i.sync
      case None => o == Outcome(Failed, true)
      case Some(sync) =>
        && (!sync.enabled ==> o == Outcome(Disabled, false))
        && (sync.enabled && sync.layoutPage ==> o == Outcome(Refused, false))
        && (sync.enabled && !w.allowed(sync.site, sync.space) ==> o == Outcome(Refused, false))
        && (sync.enabled && (i.scopes.None? || !("public:read" in i.scopes.value || "confluence:write" in i.scopes.value)) ==>
              o == Outcome(Refused, false))
        && (Writes(w, i) && w.report(run).failure.Some? ==> o.error && o.status == w.report(run).failure.value)
        && (Writes(w, i) && w.report(run).failure.None? ==> o.status.Succeeded? && (o.error <==> !w.report(run).recorded))
  {
  }

  /** The run's snapshot can be read and its export succeeds. */
  predicate Exports(w: World, run: nat) {
    w.load(run).Some? && Once(w, run, w.load(run).value).Exported()
  }

  lemma {:induction false} FromEnds(w: World, limit: nat, run: nat, before: Outcome, exported: string)
    requires 1 <= run <= limit + 1
    ensures var t := From(w, limit, run, before, exported);
      && (t.ended.None? ==> run + |t.heads| <= limit && w.load(run + |t.heads|).None?)
      && (forall k | run <= k < run + |t.heads| - 1 :: Exports(w, k))
      && (t.ended.Some? && t.heads == [] ==> t.ended.value == before)
      && (t.ended.Some? && t.heads != [] ==>
            var last := run + |t.heads| - 1;
            w.load(last).Some? && t.ended.value == Once(w, last, w.load(last).value))
    decreases limit + 1 - run
  {
    if run <= limit && w.load(run).Some? {
      var i := w.load(run).value;
      if !(run > 1 && i.head == exported) && Once(w, run, i).Exported() {
        FromEnds(w, limit, run + 1, Once(w, run, i), i.head);
        assert Exports(w, run);
      }
    }
    hide Once;
  }

  /**
   A job goes on only from an export that succeeded, and ends as its last one
   did; it has no outcome only when the snapshot after that cannot be read.
  */
  lemma JobEndsAsItsLastExport(w: World, limit: nat)
    requires limit > 0
    ensures var t := Job(w, limit);
      && (t.ended.None? ==> |t.heads| < limit && w.load(|t.heads| + 1).None?)
      && (forall k | 1 <= k < |t.heads| :: Exports(w, k))
      && (t.ended.Some? ==> t.heads != [] && w.load(|t.heads|).Some? && t.ended.value == Once(w, |t.heads|, w.load(|t.heads|).value))
  {
    FromEnds(w, limit, 1, NOT_RUN, "");
    hide Once;
  }

  // ---- what it guarantees ----

  ghost predicate NeighboursDiffer(heads: seq<string>) {
    forall i | 0 <= i < |heads| - 1 :: heads[i] != heads[i + 1]
  }

  lemma {:induction false} FromBounds(w: World, limit: nat, run: nat, before: Outcome, exported: string)
    requires 1 <= run <= limit + 1
    ensures var t := From(w, limit, run, before, exported);
      && |t.heads| <= limit + 1 - run
      && NeighboursDiffer(t.heads)
      && (run > 1 && t.heads != [] ==> t.heads[0] != exported)
    decreases limit + 1 - run
  {
    if run <= limit && w.load(run).Some? {
      var i := w.load(run).value;
      FromBounds(w, limit, run + 1, Once(w, run, i), i.head);
    }
  }

  /** A job exports at most `limit` times, each time a head other than the one before. */
  lemma RunsAreBounded(w: World, limit: nat)
    ensures |Job(w, limit).heads| <= limit && NeighboursDiffer(Job(w, limit).heads)
  {
    FromBounds(w, limit, 1, NOT_RUN, "");
  }

  predicate Succeeds(t: Trace) {
    t.ended.Some? && t.ended.value.Exported()
  }

  lemma {:induction false} FromCatchesUp(w: World, limit: nat, run: nat, before: Outcome, exported: string)
    requires 1 < run <= limit + 1
    ensures var t := From(w, limit, run, before, exported);
      Succeeds(t) && |t.heads| < limit + 1 - run ==>
        && t.loaded == Some(if t.heads == [] then exported else t.heads[|t.heads| - 1])
        && w.load(run + |t.heads|).Some? && t.loaded == Some(w.load(run + |t.heads|).value.head)
    decreases limit + 1 - run
  {
    if run <= limit && w.load(run).Some? {
      var i := w.load(run).value;
      FromCatchesUp(w, limit, run + 1, Once(w, run, i), i.head);
    }
  }

  /**
   A job that succeeds in fewer exports than it may make has loaded once more
   after the last and found the head it had just exported: a commit that was
   there by then is not missed.
  */
  lemma SuccessExportsLastLoad(w: World, limit: nat)
    requires Succeeds(Job(w, limit)) && |Job(w, limit).heads| < limit
    ensures var t := Job(w, limit);
      t.heads != [] && t.loaded == Some(t.heads[|t.heads| - 1])
      && w.load(|t.heads| + 1).Some? && w.load(|t.heads| + 1).value.head == t.heads[|t.heads| - 1]
  {
    var i := w.load(1).value;
    FromCatchesUp(w, limit, 2, Once(w, 1, i), i.head);
  }

  /** The run's snapshot can be read and exported, and its head is not the one before. */
  predicate Moves(w: World, run: nat) {
    && Exports(w, run)
    && (run > 1 ==> w.load(run - 1).Some? && w.load(run).value.head != w.load(run - 1).value.head)
  }

  lemma {:induction false} FromKeepsUp(w: World, limit: nat, run: nat, before: Outcome, exported: string)
    requires 1 <= run <= limit + 1 && forall k | run <= k <= limit :: Moves(w, k)
    requires 1 < run <= limit && w.load(run - 1).Some? ==> exported == w.load(run - 1).value.head
    ensures |From(w, limit, run, before, exported).heads| == limit + 1 - run
    decreases limit + 1 - run
  {
    if run <= limit {
      assert Moves(w, run);
      FromKeepsUp(w, limit, run + 1, Once(w, run, w.load(run).value), w.load(run).value.head);
    }
    hide Once;
  }

  /** A head that moves during every export is exported three times, and no fourth. */
  lemma MovingHeadIsExportedThrice(w: World)
    ensures |Job(w, MAX_RUNS).heads| <= 3
    ensures Moves(w, 1) && Moves(w, 2) && Moves(w, 3) ==> |Job(w, MAX_RUNS).heads| == 3
  {
    RunsAreBounded(w, MAX_RUNS);
    if Moves(w, 1) && Moves(w, 2) && Moves(w, 3) {
      FromKeepsUp(w, MAX_RUNS, 1, NOT_RUN, "");
    }
    hide Once;
  }

  lemma {:induction false} FromWrites(w: World, limit: nat, run: nat, before: Outcome, exported: string, k: nat)
    requires 1 <= run <= limit + 1
    requires Succeeds(From(w, limit, run, before, exported)) && k < |From(w, limit, run, before, exported).heads|
    ensures w.load(run + k).Some?
    ensures w.load(run + k).value.head == From(w, limit, run, before, exported).heads[k] && Writes(w, w.load(run + k).value)
    decreases limit + 1 - run
  {
    if k > 0 {
      var i := w.load(run).value;
      FromWrites(w, limit, run + 1, Once(w, run, i), i.head, k - 1);
    }
  }

  /** The k-th head a successful job exported is that of its k-th snapshot, which was enabled, allowed and publishable. */
  lemma SuccessOnlyWritesWhatIsAllowed(w: World, limit: nat, k: nat)
    requires Succeeds(Job(w, limit)) && k < |Job(w, limit).heads|
    ensures w.load(1 + k).Some? && w.load(1 + k).value.head == Job(w, limit).heads[k] && Writes(w, w.load(1 + k).value)
  {
    FromWrites(w, limit, 1, NOT_RUN, "", k);
  }
}
