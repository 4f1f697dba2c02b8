/**
 A trusted issuer's key set (internal/oauth/verify.go). A token that names a key
 the set does not have makes the verifier fetch the set again, but never twice
 within the refresh interval, however many such tokens arrive.
*/
module Jwks {
  import opened Wrappers
  import opened OAuthState
  import opened OAuthServer

  datatype Key = Key(kid: string, material: nat)

  type KeySet = seq<Key>

  /** jwksRefreshInterval, in seconds. */
  const INTERVAL: nat := 60

  /** jwksTTL, in seconds: how long the replicas' cache keeps a set. */
  const TTL: nat := 3600

  datatype KeyError = Unreachable | UnknownKey

  /** keys is None before the first load, last None before the first refresh. */
  datatype Issuer = Issuer(keys: Option<KeySet>, last: Option<nat>)

  /**
   One call: the kid asked for, the clock when the interval is checked and when
   the refresh is stamped, the set in the cache, and the sets the issuer would
   send to a first load and to a refresh (None when it cannot be fetched, cannot
   be read or is empty).
  */
  datatype Call = Call(
    kid: string, now: nat, stamp: nat, cached: Option<KeySet>, initial: Option<KeySet>, remote: Option<KeySet>)

  function Find(keys: KeySet, kid: string): (r: Option<nat>)
    ensures kid != "" ==> (r.Some? <==> exists i :: 0 <= i < |keys| && keys[i].kid == kid)
  {
    if kid == "" then if |keys| == 1 then Some(keys[0].material) else None
    else if keys == [] then None
    else if keys[0].kid == kid then Some(keys[0].material)
    else
      var r := Find(keys[1..], kid);
      assert forall i | 0 <= i < |keys[1..]| :: keys[1..][i] == keys[i + 1];
      assert (exists i :: 0 <= i < |keys| && keys[i].kid == kid) ==> exists i :: 0 <= i < |keys[1..]| && keys[1..][i].kid == kid by {
        if i :| 0 <= i < |keys| && keys[i].kid == kid {
          assert keys[1..][i - 1].kid == kid;
        }
      }
      r
  }

  /** m is the key a token naming kid is checked with: the first of that kid, or the only key when it names none. */
  ghost predicate IsKeyFor(keys: KeySet, kid: string, m: nat) {
    if kid == "" then |keys| == 1 && keys[0].material == m
    else exists i :: 0 <= i < |keys| && keys[i] == Key(kid, m) && forall j | 0 <= j < i :: keys[j].kid != kid
  }

  lemma {:induction false} FindIffKeyFor(keys: KeySet, kid: string, m: nat)
    ensures Find(keys, kid) == Some(m) <==> IsKeyFor(keys, kid, m)
  {
    if kid != "" && keys != [] {
      var rest := keys[1..];
      assert forall i | 0 <= i < |rest| :: rest[i] == keys[i + 1];
      if keys[0].kid != kid {
        FindIffKeyFor(rest, kid, m);
        if IsKeyFor(rest, kid, m) {
          var i :| 0 <= i < |rest| && rest[i] == Key(kid, m) && forall j | 0 <= j < i :: rest[j].kid != kid;
          assert keys[i + 1] == Key(kid, m) && forall j | 0 < j < i + 1 :: keys[j] == rest[j - 1];
        }
        if IsKeyFor(keys, kid, m) {
          var i :| 0 <= i < |keys| && keys[i] == Key(kid, m) && forall j | 0 <= j < i :: keys[j].kid != kid;
          assert rest[i - 1] == Key(kid, m);
        }
      }
    }
  }

  /** A cached or fetched set counts only when it has keys. */
  function Usable(sent: Option<KeySet>): Option<KeySet> {
    if sent.Some? && sent.value != [] then sent else None
  }

  function Loaded(t: Issuer, c: Call): Option<KeySet> {
    if t.keys.Some? then t.keys else if Usable(c.cached).Some? then Usable(c.cached) else Usable(c.initial)
  }

  predicate Due(t: Issuer, now: nat) {
    t.last.None? || now - t.last.value >= INTERVAL
  }

  /** stored is the entry left in the cache, None when the call wrote none. */
  datatype Step = Step(after: Issuer, answer: Result<nat, KeyError>, attempted: bool, stored: Option<Entry<KeySet>>)

  /** What a first load writes to the cache. */
  function LoadStores(t: Issuer, c: Call): Option<Entry<KeySet>> {
    if t.keys.None? && Usable(c.cached).None? && Usable(c.initial).Some?
    then Some(NewEntry(c.initial.value, c.now, TTL))
    else None
  }

  /** What key does. */
  function Lookup(t: Issuer, c: Call): Step {
    match Loaded(t, c)
    case None => Step(t, Err(Unreachable), false, None)
    case Some(keys) =>
      var loaded := Issuer(Some(keys), t.last);
      if Find(keys, c.kid).Some? then Step(loaded, Ok(Find(keys, c.kid).value), false, LoadStores(t, c))
      else if !Due(t, c.now) then Step(loaded, Err(UnknownKey), false, LoadStores(t, c))
      else match Usable(c.remote)
        case None => Step(loaded.(last := Some(c.stamp)), Err(Unreachable), true, LoadStores(t, c))
        case Some(fetched) =>
          Step(Issuer(Some(fetched), Some(c.stamp)),
               if Find(fetched, c.kid).Some? then Ok(Find(fetched, c.kid).value) else Err(UnknownKey),
               true, Some(NewEntry(fetched, c.stamp, TTL)))
  }

  /** The call with what the cache has for it. */
  function Reading(c: Call, entries: map<string, Entry<KeySet>>, key: string): Call {
    c.(cached := Peek(entries, key, c.now))
  }

  function Writing(entries: map<string, Entry<KeySet>>, key: string, stored: Option<Entry<KeySet>>): map<string, Entry<KeySet>> {
    if stored.Some? then entries[key := stored.value] else entries
  }

  // ---- the code ----

  class TrustedIssuer {
    var keys: Option<KeySet>
    var lastRefresh: Option<nat>
    const cache: Cache<string, KeySet>
    const cacheKey: string

    constructor (cache: Cache<string, KeySet>, cacheKey: string)
      ensures State() == Issuer(None, None) && this.cache == cache && this.cacheKey == cacheKey
    {
      this.cache := cache;
      this.cacheKey := cacheKey;
      keys := None;
      lastRefresh := None;
    }

    function State(): Issuer
      reads this
    {
      Issuer(keys, lastRefresh)
    }

    method Key(c: Call) returns (answer: Result<nat, KeyError>)
      modifies this, cache
      ensures var step := Lookup(old(State()), Reading(c, old(cache.entries), cacheKey));
        State() == step.after && answer == step.answer && cache.entries == Writing(old(cache.entries), cacheKey, step.stored)
    {
      if keys.None? {
        var loaded := Load(c);
        if !loaded { return Err(Unreachable); }
      }
      var found := FindKey(c.kid);
      if found.Some? { return Ok(found.value); }
      if lastRefresh.None? || c.now - lastRefresh.value >= INTERVAL {
        lastRefresh := Some(c.stamp);
        var fetched := Refresh(c.remote, c.stamp);
        if !fetched { return Err(Unreachable); }
        found := FindKey(c.kid);
        if found.Some? { return Ok(found.value); }
      }
      return Err(UnknownKey);
    }

    method FindKey(kid: string) returns (r: Option<nat>)
      requires keys.Some?
      ensures r == Find(keys.value, kid)
    {
      var sent := keys.value;
      if kid == "" {
        if |sent| == 1 { return Some(sent[0].material); }
        return None;
      }
      for i := 0 to |sent|
        invariant Find(sent, kid) == Find(sent[i..], kid)
      {
        assert sent[i..][1..] == sent[i + 1..];
        if sent[i].kid == kid { return Some(sent[i].material); }
      }
      return None;
    }

    method Load(c: Call) returns (ok: bool)
      requires keys.None?
      modifies this`keys, cache
      ensures var call := Reading(c, old(cache.entries), cacheKey);
        && ok == Loaded(old(State()), call).Some?
        && keys == Loaded(old(State()), call)
        && cache.entries == Writing(old(cache.entries), cacheKey, LoadStores(old(State()), call))
    {
      var cached := cache.Get(cacheKey, c.now);
      if cached.Some? && |cached.value| > 0 {
        keys := cached;
        return true;
      }
      ok := Refresh(c.initial, c.now);
    }

    /** A set with no keys is none; one with keys replaces the replica's and goes to the cache. */
    method Refresh(remote: Option<KeySet>, now: nat) returns (ok: bool)
      modifies this`keys, cache
      ensures ok == Usable(remote).Some?
      ensures keys == if ok then remote else old(keys)
      ensures cache.entries == Writing(old(cache.entries), cacheKey, if ok then Some(NewEntry(remote.value, now, TTL)) else None)
    {
      if remote.None? || |remote.value| == 0 { return false; }
      keys := remote;
      cache.Set(cacheKey, remote.value, TTL, now);
      return true;
    }
  }

  // ---- how often it refreshes ----

  /** Clock readings never go back, within a call or from one to the next. */
  predicate Monotone(calls: seq<Call>) {
    && (forall i | 0 <= i < |calls| :: calls[i].now <= calls[i].stamp)
    && (forall i, j | 0 <= i < j < |calls| :: calls[i].stamp <= calls[j].now)
  }

  function RunAll(t: Issuer, calls: seq<Call>): Issuer
    decreases |calls|
  {
    if calls == [] then t else RunAll(Lookup(t, calls[0]).after, calls[1..])
  }

  /** When refreshes for an unknown kid were attempted, failed ones included. */
  function Attempts(t: Issuer, calls: seq<Call>): seq<nat>
    decreases |calls|
  {
    if calls == [] then []
    else
      var step := Lookup(t, calls[0]);
      (if step.attempted then [calls[0].stamp] else []) + Attempts(step.after, calls[1..])
  }

  predicate Spaced(times: seq<nat>) {
    forall i, j | 0 <= i < j < |times| :: times[i] + INTERVAL <= times[j]
  }

  lemma {:induction false} AttemptsSpaced(t: Issuer, calls: seq<Call>)
    requires Monotone(calls) && (t.last.Some? && calls != [] ==> t.last.value <= calls[0].now)
    ensures Spaced(Attempts(t, calls))
    ensures t.last.Some? ==> forall i | 0 <= i < |Attempts(t, calls)| :: t.last.value + INTERVAL <= Attempts(t, calls)[i]
    decreases |calls|
  {
    if calls != [] {
      assert forall i | 0 <= i < |calls[1..]| :: calls[1..][i] == calls[i + 1];
      AttemptsSpaced(Lookup(t, calls[0]).after, calls[1..]);
    }
  }

  function CountIn(times: seq<nat>, from: nat, until: nat): nat {
    if times == [] then 0 else (if from <= times[0] <= until then 1 else 0) + CountIn(times[1..], from, until)
  }

  lemma {:induction false} NoneBefore(times: seq<nat>, from: nat, until: nat)
    requires forall i | 0 <= i < |times| :: times[i] > until
    ensures CountIn(times, from, until) == 0
  {
    if times != [] {
      assert forall i | 0 <= i < |times[1..]| :: times[1..][i] == times[i + 1];
      NoneBefore(times[1..], from, until);
    }
  }

  lemma {:induction false} NarrowerCount(times: seq<nat>, from: nat, later: nat, until: nat)
    requires from <= later && forall i | 0 <= i < |times| :: times[i] >= later
    ensures CountIn(times, from, until) == CountIn(times, later, until)
  {
    if times != [] {
      assert forall i | 0 <= i < |times[1..]| :: times[1..][i] == times[i + 1];
      NarrowerCount(times[1..], from, later, until);
    }
  }

  lemma {:induction false} SpacedCount(times: seq<nat>, from: nat, until: nat)
    requires Spaced(times) && from <= until
    ensures CountIn(times, from, until) * INTERVAL <= until - from + INTERVAL
  {
    if times != [] {
      var rest := times[1..];
      assert forall i | 0 <= i < |rest| :: rest[i] == times[i + 1];
      if !(from <= times[0] <= until) {
        SpacedCount(rest, from, until);
      } else {
        var next := times[0] + INTERVAL;
        NarrowerCount(rest, from, next, until);
        if next <= until {
          SpacedCount(rest, next, until);
        } else {
          NoneBefore(rest, next, until);
        }
      }
    }
  }

  /**
   Whatever kids are asked for, in any window of w seconds at most
   w / 60 + 1 refreshes are attempted.
  */
  lemma RefreshesAreBounded(t: Issuer, calls: seq<Call>, from: nat, w: nat)
    requires Monotone(calls) && (t.last.Some? && calls != [] ==> t.last.value <= calls[0].now)
    ensures CountIn(Attempts(t, calls), from, from + w) <= w / 60 + 1
  {
    AttemptsSpaced(t, calls);
    SpacedCount(Attempts(t, calls), from, from + w);
  }

  // ---- what it answers ----

  /** A call is answered with a key exactly when it is the one for the kid in the set the call leaves. */
  lemma AnswerIsTheKeyOfTheSet(t: Issuer, c: Call, m: nat)
    ensures var step := Lookup(t, c);
      step.answer == Ok(m) <==> step.after.keys.Some? && IsKeyFor(step.after.keys.value, c.kid, m)
  {
    forall keys: KeySet ensures Find(keys, c.kid) == Some(m) <==> IsKeyFor(keys, c.kid, m) {
      FindIffKeyFor(keys, c.kid, m);
    }
    hide IsKeyFor, Find;
  }

  /** That set is the replica's own, the cached one when it has none, or one the issuer sent. */
  lemma SetIsOwnCachedOrSent(t: Issuer, c: Call)
    ensures var after := Lookup(t, c).after.keys;
      || after == t.keys
      || (after == c.cached && t.keys.None?)
      || (after == c.initial && t.keys.None? && Usable(c.cached).None?)
      || (after == c.remote && Lookup(t, c).attempted)
    ensures Lookup(t, c).after.keys.None? ==> c.cached in {None, Some([])} && c.initial in {None, Some([])}
  {
    hide Find;
  }

  /** A key of the set there is answers at once: nobody is asked and nothing changes. */
  lemma KnownKidAsksNobody(t: Issuer, c: Call, m: nat)
    requires t.keys.Some? && IsKeyFor(t.keys.value, c.kid, m)
    ensures Lookup(t, c) == Step(t, Ok(m), false, None)
  {
    FindIffKeyFor(t.keys.value, c.kid, m);
  }

  /**
   A key the issuer publishes answers the first call an interval after the last
   attempt, when the replica's set has none for its kid.
  */
  lemma PublishedKidIsFound(t: Issuer, c: Call, m: nat)
    requires t.keys.Some? && (forall known :: !IsKeyFor(t.keys.value, c.kid, known))
    requires t.last.None? || c.now - t.last.value >= 60
    requires c.remote.Some? && IsKeyFor(c.remote.value, c.kid, m)
    ensures Lookup(t, c) == Step(Issuer(c.remote, Some(c.stamp)), Ok(m), true, Some(Entry(c.remote.value, Some(c.stamp + 3600))))
  {
    FindIffKeyFor(c.remote.value, c.kid, m);
    if Find(t.keys.value, c.kid).Some? {
      FindIffKeyFor(t.keys.value, c.kid, Find(t.keys.value, c.kid).value);
    }
    assert c.remote.value != [];
  }

  lemma FindsNone(keys: KeySet, kid: string)
    ensures Find(keys, kid).None? <==> forall m :: !IsKeyFor(keys, kid, m)
  {
    if Find(keys, kid).Some? {
      FindIffKeyFor(keys, kid, Find(keys, kid).value);
    }
    forall m ensures IsKeyFor(keys, kid, m) ==> Find(keys, kid).Some? {
      FindIffKeyFor(keys, kid, m);
    }
  }

  /** An unknown kid makes the issuer be asked exactly when the interval is over; within it nothing changes. */
  lemma UnknownKidWithinInterval(t: Issuer, c: Call)
    requires t.keys.Some? && forall m :: !IsKeyFor(t.keys.value, c.kid, m)
    ensures Lookup(t, c).attempted <==> t.last.None? || c.now - t.last.value >= 60
    ensures !Lookup(t, c).attempted ==> Lookup(t, c) == Step(t, Err(UnknownKey), false, None)
  {
    FindsNone(t.keys.value, c.kid);
  }
}
