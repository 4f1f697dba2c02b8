/**
 Bringing a repository's rows to the desired state behind a content-hash gate
 (internal/store/reconcile.go). Documents are keyed by doc id, pages by
 published path; the loop is the same, so the table is generic in its key.
*/
module Reconcile {
  import opened Wrappers

  /** A desired row; meta is what is written only along with the content. */
  datatype Item<K, M> = Item(key: K, hash: string, content: string, meta: M)

  /** A stored row; `at` is its updated_at. */
  datatype Row<M> = Row(hash: string, content: string, meta: M, at: nat)

  function KeysOf<K, M>(desired: seq<Item<K, M>>): set<K> {
    set i | 0 <= i < |desired| :: desired[i].key
  }

  /** The gate: the row is there with the same hash. */
  predicate Unchanged<K, M>(rows: map<K, Row<M>>, d: Item<K, M>) {
    d.key in rows && rows[d.key].hash == d.hash
  }

  function RowOf<K, M>(d: Item<K, M>, now: nat): Row<M> {
    Row(d.hash, d.content, d.meta, now)
  }

  /** The upserts, each judged against the rows read at the start. */
  function Upserted<K, M>(rows: map<K, Row<M>>, start: map<K, Row<M>>, desired: seq<Item<K, M>>, now: nat): map<K, Row<M>>
    decreases |desired|
  {
    if desired == [] then rows
    else
      var d := desired[0];
      Upserted(if Unchanged(start, d) then rows else rows[d.key := RowOf(d, now)], start, desired[1..], now)
  }

  /** The keys reported as upserted, in order. */
  function ChangedKeys<K, M>(start: map<K, Row<M>>, desired: seq<Item<K, M>>): seq<K> {
    if desired == [] then []
    else (if Unchanged(start, desired[0]) then [] else [desired[0].key]) + ChangedKeys(start, desired[1..])
  }

  /** The table after the reconcile. */
  function Reconciled<K, M>(rows: map<K, Row<M>>, desired: seq<Item<K, M>>, now: nat): map<K, Row<M>> {
    Upserted(rows, rows, desired, now) - (rows.Keys - KeysOf(desired))
  }

  datatype Report<K> = Report(upserted: nat, kept: nat, deleted: nat, upsertedIDs: seq<K>, deletedIDs: seq<K>)

  ghost predicate Distinct<K>(s: seq<K>) {
    forall i, j | 0 <= i < j < |s| :: s[i] != s[j]
  }

  ghost predicate Names<K>(s: seq<K>, keys: set<K>) {
    Distinct(s) && (set k | k in s) == keys
  }

  lemma {:induction false} UpsertedSnoc<K, M>(rows: map<K, Row<M>>, start: map<K, Row<M>>, a: seq<Item<K, M>>, d: Item<K, M>, now: nat)
    ensures Upserted(rows, start, a + [d], now) ==
      var before := Upserted(rows, start, a, now); if Unchanged(start, d) then before else before[d.key := RowOf(d, now)]
    ensures ChangedKeys(start, a + [d]) == ChangedKeys(start, a) + if Unchanged(start, d) then [] else [d.key]
    decreases |a|
  {
    if a == [] {
      assert a + [d] == [d] && [d][1..] == [];
    } else {
      assert (a + [d])[0] == a[0] && (a + [d])[1..] == a[1..] + [d];
      UpsertedSnoc(if Unchanged(start, a[0]) then rows else rows[a[0].key := RowOf(a[0], now)], start, a[1..], d, now);
    }
  }

  lemma UpsertedNext<K, M>(rows: map<K, Row<M>>, desired: seq<Item<K, M>>, i: nat, now: nat)
    requires i < |desired|
    ensures Upserted(rows, rows, desired[..i + 1], now) ==
      var before := Upserted(rows, rows, desired[..i], now);
      if Unchanged(rows, desired[i]) then before else before[desired[i].key := RowOf(desired[i], now)]
    ensures ChangedKeys(rows, desired[..i + 1]) ==
      ChangedKeys(rows, desired[..i]) + if Unchanged(rows, desired[i]) then [] else [desired[i].key]
    ensures KeysOf(desired[..i + 1]) == KeysOf(desired[..i]) + {desired[i].key}
  {
    assert desired[..i + 1] == desired[..i] + [desired[i]];
    UpsertedSnoc(rows, rows, desired[..i], desired[i], now);
  }

  /** One repository's rows of one table. */
  class Table<K(==), M> {
    var rows: map<K, Row<M>>

    constructor ()
      ensures rows == map[]
    {
      rows := map[];
    }

    method Reconcile(desired: seq<Item<K, M>>, now: nat) returns (res: Report<K>)
      modifies this
      ensures rows == Reconciled(old(rows), desired, now)
      ensures res.upsertedIDs == ChangedKeys(old(rows), desired)
      ensures Names(res.deletedIDs, old(rows).Keys - KeysOf(desired))
      ensures res.upserted == |res.upsertedIDs| && res.deleted == |res.deletedIDs|
      ensures res.upserted + res.kept == |desired|
    {
      var current: map<K, string> := map k | k in rows :: rows[k].hash;
      var keep: set<K>;
      res, keep := Upsert(current, desired, now);
      var deleted := DeleteAbsent(current.Keys, keep);
      res := res.(deleted := |deleted|, deletedIDs := deleted);
    }

    /** The first loop: what is new or changed is written, what is desired is remembered. */
    method Upsert(current: map<K, string>, desired: seq<Item<K, M>>, now: nat) returns (res: Report<K>, keep: set<K>)
      requires current == map k | k in rows :: rows[k].hash
      modifies this
      ensures rows == Upserted(old(rows), old(rows), desired, now)
      ensures keep == KeysOf(desired) && res.upsertedIDs == ChangedKeys(old(rows), desired)
      ensures res.upserted == |res.upsertedIDs| && res.upserted + res.kept == |desired|
    {
      ghost var start := rows;
      keep := {};
      res := Report(0, 0, 0, [], []);
      for i := 0 to |desired|
        invariant rows == Upserted(start, start, desired[..i], now)
        invariant keep == KeysOf(desired[..i])
        invariant res.upsertedIDs == ChangedKeys(start, desired[..i])
        invariant res.upserted == |res.upsertedIDs| && res.upserted + res.kept == i
      {
        var d := desired[i];
        UpsertedNext(start, desired, i, now);
        keep := keep + {d.key};
        if d.key in current && current[d.key] == d.hash {
          res := res.(kept := res.kept + 1);
          continue;
        }
        rows := rows[d.key := RowOf(d, now)];
        res := res.(upserted := res.upserted + 1, upsertedIDs := res.upsertedIDs + [d.key]);
      }
      assert desired[..|desired|] == desired;
    }

    /** The second loop, over the rows there were at the start. */
    method DeleteAbsent(current: set<K>, keep: set<K>) returns (deleted: seq<K>)
      modifies this
      ensures rows == old(rows) - (current - keep) && Names(deleted, current - keep)
    {
      deleted := [];
      var left := current;
      ghost var visited: set<K> := {};
      while left != {}
        invariant left !! visited && left + visited == current
        invariant Names(deleted, visited - keep)
        invariant rows == old(rows) - (visited - keep)
        decreases |left|
      {
        var k :| k in left;
        ghost var before := visited - keep;
        left, visited := left - {k}, visited + {k};
        if k in keep {
          assert visited - keep == before;
          continue;
        }
        assert visited - keep == before + {k};
        NamesNext(deleted, before, k);
        rows := rows - {k};
        deleted := deleted + [k];
      }
      assert visited == current;
    }
  }

  lemma NamesMember<K>(s: seq<K>, keys: set<K>, k: K)
    requires Names(s, keys)
    ensures k in s <==> k in keys
  {
    assert k in s <==> k in (set x | x in s);
  }

  lemma NamesNext<K>(s: seq<K>, keys: set<K>, k: K)
    requires Names(s, keys) && k !in keys
    ensures Names(s + [k], keys + {k})
  {
  }

  // ---- the state it reaches ----

  lemma {:induction false} ChangedKeysAre<K, M>(start: map<K, Row<M>>, desired: seq<Item<K, M>>, k: K)
    ensures k in ChangedKeys(start, desired) <==> exists i :: 0 <= i < |desired| && desired[i].key == k && !Unchanged(start, desired[i])
  {
    if desired != [] {
      var rest := desired[1..];
      assert forall i | 0 <= i < |rest| :: rest[i] == desired[i + 1];
      ChangedKeysAre(start, rest, k);
      if k in ChangedKeys(start, rest) {
        var i :| 0 <= i < |rest| && rest[i].key == k && !Unchanged(start, rest[i]);
        assert desired[i + 1].key == k;
      }
      if !Unchanged(start, desired[0]) {
        assert desired[0].key == k ==> k in ChangedKeys(start, desired);
      }
      forall i | 0 < i < |desired| && desired[i].key == k && !Unchanged(start, desired[i])
        ensures k in ChangedKeys(start, desired)
      {
        assert rest[i - 1].key == k;
      }
    }
  }

  /** With distinct keys no key is reported twice. */
  lemma {:induction false} ChangedKeysDistinct<K, M>(start: map<K, Row<M>>, desired: seq<Item<K, M>>)
    requires forall i, j | 0 <= i < j < |desired| :: desired[i].key != desired[j].key
    ensures Distinct(ChangedKeys(start, desired))
  {
    if desired != [] {
      var rest := desired[1..];
      assert forall i | 0 <= i < |rest| :: rest[i] == desired[i + 1];
      ChangedKeysDistinct(start, rest);
      ChangedKeysAre(start, rest, desired[0].key);
    }
  }

  /** What the upserts leave at a key: a reported key has a row just written, any other the row there was. */
  lemma {:induction false} UpsertedAt<K, M>(rows: map<K, Row<M>>, start: map<K, Row<M>>, desired: seq<Item<K, M>>, now: nat, k: K)
    ensures var after := Upserted(rows, start, desired, now);
      if k in ChangedKeys(start, desired)
      then k in after && exists i :: 0 <= i < |desired| && desired[i].key == k && !Unchanged(start, desired[i]) && after[k] == RowOf(desired[i], now)
      else (k in after <==> k in rows) && (k in rows ==> after[k] == rows[k])
    decreases |desired|
  {
    if desired != [] {
      var d, rest := desired[0], desired[1..];
      assert forall i | 0 <= i < |rest| :: rest[i] == desired[i + 1];
      UpsertedAt(if Unchanged(start, d) then rows else rows[d.key := RowOf(d, now)], start, rest, now, k);
      if k in ChangedKeys(start, rest) {
        var after := Upserted(rows, start, desired, now);
        var i :| 0 <= i < |rest| && rest[i].key == k && !Unchanged(start, rest[i]) && after[k] == RowOf(rest[i], now);
        assert desired[i + 1].key == k;
      }
    }
  }

  /** What the reconcile leaves at a key: the row of one of its items, or the row there was when all of them have its hash. */
  lemma ReconciledAt<K, M>(rows: map<K, Row<M>>, desired: seq<Item<K, M>>, now: nat, k: K)
    requires k in KeysOf(desired)
    ensures var after := Reconciled(rows, desired, now);
      && k in after
      && if k in ChangedKeys(rows, desired)
         then exists i :: 0 <= i < |desired| && desired[i].key == k && !Unchanged(rows, desired[i]) && after[k] == RowOf(desired[i], now)
         else k in rows && after[k] == rows[k] && forall i | 0 <= i < |desired| && desired[i].key == k :: desired[i].hash == rows[k].hash
  {
    UpsertedAt(rows, rows, desired, now, k);
    ChangedKeysAre(rows, desired, k);
  }

  /** The keys are exactly the desired ones. */
  lemma ReconciledKeys<K, M>(rows: map<K, Row<M>>, desired: seq<Item<K, M>>, now: nat)
    ensures Reconciled(rows, desired, now).Keys == KeysOf(desired)
  {
    var after := Reconciled(rows, desired, now);
    forall k | k in KeysOf(desired) ensures k in after {
      ReconciledAt(rows, desired, now, k);
    }
    forall k | k in after ensures k in KeysOf(desired) {
      UpsertedAt(rows, rows, desired, now, k);
      ChangedKeysAre(rows, desired, k);
    }
  }

  /**
   The reports name exactly the rows that differ: a key is reported upserted
   when its row is new or has another hash, and every other kept row is the row
   there was.
  */
  lemma ReportsWhatChanged<K, M>(rows: map<K, Row<M>>, desired: seq<Item<K, M>>, now: nat, k: K)
    ensures var after := Reconciled(rows, desired, now);
      && (k in ChangedKeys(rows, desired) <==> k in after && !(k in rows && rows[k].hash == after[k].hash))
      && (k in ChangedKeys(rows, desired) ==> after[k].at == now)
      && (k in after && k !in ChangedKeys(rows, desired) ==> k in rows && after[k] == rows[k])
  {
    ReconciledKeys(rows, desired, now);
    ChangedKeysAre(rows, desired, k);
    if k in KeysOf(desired) {
      ReconciledAt(rows, desired, now, k);
    }
  }

  // ---- contents, when hashes tell contents apart ----

  /** One key, one item. */
  ghost predicate OnePerKey<K, M>(desired: seq<Item<K, M>>) {
    forall i, j | 0 <= i < |desired| && 0 <= j < |desired| && desired[i].key == desired[j].key :: desired[i] == desired[j]
  }

  /** No two desired rows with one key have different hashes. */
  ghost predicate OneHashPerKey<K, M>(desired: seq<Item<K, M>>) {
    forall i, j | 0 <= i < |desired| && 0 <= j < |desired| && desired[i].key == desired[j].key :: desired[i].hash == desired[j].hash
  }

  /** No two of these strings have one hash. */
  ghost predicate CollisionFree(digest: string -> string, among: set<string>) {
    forall a, b | a in among && b in among && digest(a) == digest(b) :: a == b
  }

  /** The contents a reconcile compares by their hashes. */
  function Compared<K, M>(rows: map<K, Row<M>>, desired: seq<Item<K, M>>): set<string> {
    (set k | k in rows :: rows[k].content) + (set i | 0 <= i < |desired| :: desired[i].content)
  }

  ghost predicate RowsHashed<K, M>(rows: map<K, Row<M>>, digest: string -> string) {
    forall k | k in rows :: rows[k].hash == digest(rows[k].content)
  }

  ghost predicate ItemsHashed<K, M>(desired: seq<Item<K, M>>, digest: string -> string) {
    forall i | 0 <= i < |desired| :: desired[i].hash == digest(desired[i].content)
  }

  /** The rows are the desired ones, in key, hash and content. */
  ghost predicate Holds<K, M>(rows: map<K, Row<M>>, desired: seq<Item<K, M>>) {
    && rows.Keys == KeysOf(desired)
    && forall i | 0 <= i < |desired| ::
         desired[i].key in rows && rows[desired[i].key].hash == desired[i].hash && rows[desired[i].key].content == desired[i].content
  }

  /** The keys are the desired ones, and each row is, in hash and content, one of its key's items. */
  ghost predicate Represents<K, M>(rows: map<K, Row<M>>, desired: seq<Item<K, M>>) {
    && rows.Keys == KeysOf(desired)
    && forall k | k in rows ::
         exists i :: 0 <= i < |desired| && desired[i].key == k && rows[k].hash == desired[i].hash && rows[k].content == desired[i].content
  }

  /** Whatever is desired, the rows afterwards represent it, and each one's hash is its content's. */
  lemma ReconciledRepresents<K, M>(rows: map<K, Row<M>>, desired: seq<Item<K, M>>, now: nat, digest: string -> string)
    requires CollisionFree(digest, Compared(rows, desired)) && RowsHashed(rows, digest) && ItemsHashed(desired, digest)
    ensures Represents(Reconciled(rows, desired, now), desired) && RowsHashed(Reconciled(rows, desired, now), digest)
  {
    var after := Reconciled(rows, desired, now);
    ReconciledKeys(rows, desired, now);
    forall k | k in after
      ensures exists i :: 0 <= i < |desired| && desired[i].key == k && after[k].hash == desired[i].hash && after[k].content == desired[i].content
    {
      ReconciledAt(rows, desired, now, k);
      var i :| 0 <= i < |desired| && desired[i].key == k;
      assert k !in ChangedKeys(rows, desired) ==> digest(desired[i].content) == digest(rows[k].content);
    }
  }

  /** Afterwards every row has its desired hash and content, and its hash is its content's. */
  lemma ContentsAreDesired<K, M>(rows: map<K, Row<M>>, desired: seq<Item<K, M>>, now: nat, digest: string -> string)
    requires OneHashPerKey(desired) && CollisionFree(digest, Compared(rows, desired)) && RowsHashed(rows, digest) && ItemsHashed(desired, digest)
    ensures Holds(Reconciled(rows, desired, now), desired) && RowsHashed(Reconciled(rows, desired, now), digest)
  {
    var after := Reconciled(rows, desired, now);
    ReconciledRepresents(rows, desired, now, digest);
    forall i | 0 <= i < |desired|
      ensures desired[i].key in after && after[desired[i].key].hash == desired[i].hash && after[desired[i].key].content == desired[i].content
    {
      assert desired[i].key in after.Keys;
      var j :| 0 <= j < |desired| && desired[j].key == desired[i].key && after[desired[i].key].content == desired[j].content;
      assert digest(desired[i].content) == digest(desired[j].content);
    }
  }

  lemma {:induction false} NothingUpserted<K, M>(rows: map<K, Row<M>>, start: map<K, Row<M>>, desired: seq<Item<K, M>>, now: nat)
    requires forall i | 0 <= i < |desired| :: Unchanged(start, desired[i])
    ensures Upserted(rows, start, desired, now) == rows && ChangedKeys(start, desired) == []
    decreases |desired|
  {
    if desired != [] {
      assert forall i | 0 <= i < |desired[1..]| :: desired[1..][i] == desired[i + 1];
      NothingUpserted(rows, start, desired[1..], now);
    }
  }

  lemma ReconciledHash<K, M>(rows: map<K, Row<M>>, desired: seq<Item<K, M>>, now: nat, i: nat)
    requires OneHashPerKey(desired) && i < |desired|
    ensures Unchanged(Reconciled(rows, desired, now), desired[i])
  {
    assert desired[i].key in KeysOf(desired);
    ReconciledAt(rows, desired, now, desired[i].key);
  }

  /** Reconciling the same state again writes and deletes nothing. */
  lemma SecondRunChangesNothing<K, M>(rows: map<K, Row<M>>, desired: seq<Item<K, M>>, now: nat, later: nat)
    requires OneHashPerKey(desired)
    ensures var after := Reconciled(rows, desired, now);
      && Reconciled(after, desired, later) == after
      && ChangedKeys(after, desired) == [] && after.Keys - KeysOf(desired) == {}
  {
    var after := Reconciled(rows, desired, now);
    ReconciledKeys(rows, desired, now);
    forall i | 0 <= i < |desired| ensures Unchanged(after, desired[i]) {
      ReconciledHash(rows, desired, now, i);
    }
    NothingUpserted(after, after, desired, later);
  }

  // ---- when it settles ----

  /**
   A second run finds nothing to write exactly when no key is desired with two
   hashes: two documents of one id and different contents are written each time.
  */
  lemma SettlesIffOneHashPerKey<K, M>(rows: map<K, Row<M>>, desired: seq<Item<K, M>>, now: nat)
    ensures ChangedKeys(Reconciled(rows, desired, now), desired) == [] <==> OneHashPerKey(desired)
  {
    var after := Reconciled(rows, desired, now);
    if OneHashPerKey(desired) {
      forall i | 0 <= i < |desired| ensures Unchanged(after, desired[i]) {
        ReconciledHash(rows, desired, now, i);
      }
      NothingUpserted(after, after, desired, now);
    }
    if ChangedKeys(after, desired) == [] {
      forall i | 0 <= i < |desired| ensures Unchanged(after, desired[i]) {
        ChangedKeysAre(after, desired, desired[i].key);
      }
    }
  }
}
