/**
 The authorizer's cache (internal/authorize/scopes.go): what it answers is what
 the query answered for the same scopes, less than ttl ago.
*/
module ScopeAuthorizer {
  import opened Wrappers

  type RepoIDs = seq<int>

  datatype Session = Session(principalKey: string, scopes: seq<string>)

  datatype CachedAllowed = CachedAllowed(allowed: RepoIDs, scopes: seq<string>, expires: int)

  type Cache = map<string, CachedAllowed>

  /** A request, when it came, and what the store would answer it (None is an error); or an operator's Forget. */
  datatype Event =
    | Ask(session: Option<Session>, now: int, stored: Option<RepoIDs>)
    | Forget(key: string)

  /** ListRepoIDsForScopes, when it was asked. */
  datatype Query = Query(at: int, scopes: seq<string>, ids: RepoIDs)

  // ---- one request ----

  predicate Usable(cache: Cache, s: Session, now: int) {
    && s.principalKey in cache
    && now < cache[s.principalKey].expires
    && cache[s.principalKey].scopes == s.scopes
  }

  /** The answer, or None for the store's error. */
  function Answer(cache: Cache, ttl: int, e: Event): Option<RepoIDs>
    requires e.Ask?
  {
    if e.session.None? || e.session.value.scopes == [] then Some([])
    else if ttl > 0 && Usable(cache, e.session.value, e.now) then Some(cache[e.session.value.principalKey].allowed)
    else e.stored
  }

  /** Whether the request reaches the store. */
  predicate Asks(cache: Cache, ttl: int, e: Event) {
    e.Ask? && e.session.Some? && e.session.value.scopes != [] && !(ttl > 0 && Usable(cache, e.session.value, e.now))
  }

  function After(cache: Cache, ttl: int, e: Event): Cache {
    match e
    case Forget(key) => cache - {key}
    case Ask(session, now, stored) =>
      if !Asks(cache, ttl, e) || ttl <= 0 then cache
      else
        var s := session.value;
        if stored.None? then cache - {s.principalKey}
        else cache[s.principalKey := CachedAllowed(stored.value, s.scopes, now + ttl)]
  }

  // ---- the code ----

  class Authorizer {
    const ttl: int
    var cache: Cache

    constructor (ttl: int)
      ensures this.ttl == ttl && cache == map[]
    {
      this.ttl := ttl;
      cache := map[];
    }

    /** Allowed, with the store's answer, should it be asked, in e. */
    method Allowed(e: Event) returns (allowed: Option<RepoIDs>)
      requires e.Ask?
      modifies this
      ensures allowed == Answer(old(cache), ttl, e) && cache == After(old(cache), ttl, e)
    {
      if e.session.None? || |e.session.value.scopes| == 0 { return Some([]); }
      var s := e.session.value;
      var hit := Lookup(s.principalKey, s.scopes, e.now);
      if hit.Some? { return hit; }
      if e.stored.None? { return None; }
      Remember(s.principalKey, s.scopes, e.stored.value, e.now);
      return e.stored;
    }

    method Lookup(key: string, scopes: seq<string>, now: int) returns (hit: Option<RepoIDs>)
      modifies this
      ensures hit.Some? <==> ttl > 0 && Usable(old(cache), Session(key, scopes), now)
      ensures hit.Some? ==> hit.value == old(cache)[key].allowed
      ensures cache == if ttl <= 0 || hit.Some? then old(cache) else old(cache) - {key}
    {
      if ttl <= 0 { return None; }
      if key !in cache || !(now < cache[key].expires) || cache[key].scopes != scopes {
        cache := cache - {key};
        return None;
      }
      return Some(cache[key].allowed);
    }

    method Remember(key: string, scopes: seq<string>, allowed: RepoIDs, now: int)
      modifies this
      ensures cache == if ttl <= 0 then old(cache) else old(cache)[key := CachedAllowed(allowed, scopes, now + ttl)]
    {
      if ttl <= 0 { return; }
      cache := cache[key := CachedAllowed(allowed, scopes, now + ttl)];
    }

    method ForgetKey(key: string)
      modifies this
      ensures cache == After(old(cache), ttl, Forget(key))
    {
      cache := cache - {key};
    }
  }

  // ---- any sequence of requests ----

  function RunAll(cache: Cache, ttl: int, events: seq<Event>): Cache
    decreases |events|
  {
    if events == [] then cache else RunAll(After(cache, ttl, events[0]), ttl, events[1..])
  }

  /** The queries that reached the store and were answered, in order. */
  function Queries(cache: Cache, ttl: int, events: seq<Event>): seq<Query>
    decreases |events|
  {
    if events == [] then []
    else
      var e := events[0];
      (if Asks(cache, ttl, e) && e.stored.Some? then [Query(e.now, e.session.value.scopes, e.stored.value)] else [])
      + Queries(After(cache, ttl, e), ttl, events[1..])
  }

  /** Every entry is a query's answer, kept for ttl. */
  ghost predicate Backed(cache: Cache, ttl: int, queries: seq<Query>) {
    forall k | k in cache :: Query(cache[k].expires - ttl, cache[k].scopes, cache[k].allowed) in queries
  }

  lemma {:induction false} RunBacked(cache: Cache, ttl: int, events: seq<Event>, earlier: seq<Query>)
    requires Backed(cache, ttl, earlier)
    ensures Backed(RunAll(cache, ttl, events), ttl, earlier + Queries(cache, ttl, events))
    decreases |events|
  {
    if events == [] {
      assert earlier + [] == earlier;
    } else {
      var e, next := events[0], After(cache, ttl, events[0]);
      var now := if Asks(cache, ttl, e) && e.stored.Some? then [Query(e.now, e.session.value.scopes, e.stored.value)] else [];
      StepBacked(cache, ttl, e, earlier, now);
      RunBacked(next, ttl, events[1..], earlier + now);
      assert earlier + now + Queries(next, ttl, events[1..]) == earlier + (now + Queries(next, ttl, events[1..]));
    }
  }

  lemma StepBacked(cache: Cache, ttl: int, e: Event, earlier: seq<Query>, now: seq<Query>)
    requires Backed(cache, ttl, earlier)
    requires now == if Asks(cache, ttl, e) && e.stored.Some? then [Query(e.now, e.session.value.scopes, e.stored.value)] else []
    ensures Backed(After(cache, ttl, e), ttl, earlier + now)
  {
    var after := After(cache, ttl, e);
    forall k | k in after
      ensures Query(after[k].expires - ttl, after[k].scopes, after[k].allowed) in earlier + now
    {
      if k in cache && after[k] == cache[k] {
      } else {
        assert Query(after[k].expires - ttl, after[k].scopes, after[k].allowed) == now[0];
      }
    }
  }

  /** Readings of one clock that never goes back. */
  predicate Monotone(events: seq<Event>) {
    forall i, j | 0 <= i < j < |events| && events[i].Ask? && events[j].Ask? :: events[i].now <= events[j].now
  }

  lemma {:induction false} QueriesAreEarlier(cache: Cache, ttl: int, events: seq<Event>, now: int)
    requires forall i | 0 <= i < |events| && events[i].Ask? :: events[i].now <= now
    ensures forall q | q in Queries(cache, ttl, events) :: q.at <= now
    decreases |events|
  {
    if events != [] {
      assert forall i | 0 <= i < |events[1..]| :: events[1..][i] == events[i + 1];
      QueriesAreEarlier(After(cache, ttl, events[0]), ttl, events[1..], now);
    }
  }

  /** ids is what the store answered for these scopes less than ttl before now. */
  ghost predicate Recent(queries: seq<Query>, scopes: seq<string>, ids: RepoIDs, now: int, ttl: int) {
    exists q :: q in queries && q.scopes == scopes && q.ids == ids && q.at <= now < q.at + ttl
  }

  lemma EarlierReadings(events: seq<Event>, e: Event)
    requires e.Ask? && Monotone(events + [e])
    ensures forall i | 0 <= i < |events| && events[i].Ask? :: events[i].now <= e.now
  {
    var all := events + [e];
    assert all[|events|] == e;
    forall i | 0 <= i < |events| && events[i].Ask? ensures events[i].now <= e.now {
      assert all[i] == events[i];
    }
  }

  /**
   Whatever principals asked before, however their scopes changed and whatever
   was forgotten, an answer is the store's: of this very request, or of an
   earlier one with equal scopes, made less than ttl ago.
  */
  lemma AnswersAreRecentQueries(ttl: int, events: seq<Event>, e: Event)
    requires e.Ask? && e.session.Some? && e.session.value.scopes != []
    requires Monotone(events + [e])
    ensures var cache := RunAll(map[], ttl, events);
      var answer := Answer(cache, ttl, e);
      if Asks(cache, ttl, e) then answer == e.stored
      else answer.Some? && Recent(Queries(map[], ttl, events), e.session.value.scopes, answer.value, e.now, ttl)
  {
    var cache, queries := RunAll(map[], ttl, events), Queries(map[], ttl, events);
    RunBacked(map[], ttl, events, []);
    assert [] + queries == queries;
    EarlierReadings(events, e);
    QueriesAreEarlier(map[], ttl, events, e.now);
    hide Monotone, RunAll, Queries;
    if !Asks(cache, ttl, e) {
      var entry := cache[e.session.value.principalKey];
      assert Query(entry.expires - ttl, entry.scopes, entry.allowed) in queries;
    }
  }

  /** With no ttl every request is the store's own answer. */
  lemma NoTTLNoCache(events: seq<Event>, ttl: int, e: Event)
    requires ttl <= 0 && e.Ask? && e.session.Some? && e.session.value.scopes != []
    ensures Answer(RunAll(map[], ttl, events), ttl, e) == e.stored
  {
  }

  /** Nobody, or somebody without scopes, sees nothing, whatever is cached and whatever the store holds. */
  lemma NoScopesSeeNothing(events: seq<Event>, ttl: int, e: Event)
    requires e.Ask? && (e.session.Some? ==> e.session.value.scopes == [])
    ensures var cache := RunAll(map[], ttl, events); Answer(cache, ttl, e) == Some([]) && After(cache, ttl, e) == cache
  {
    hide RunAll;
  }

  /** The event neither forgets the principal nor asks for it. */
  predicate LeavesAlone(e: Event, key: string) {
    match e
    case Forget(k) => k != key
    case Ask(session, _, _) => session.Some? ==> session.value.principalKey != key
  }

  lemma {:induction false} EntryStays(cache: Cache, ttl: int, events: seq<Event>, key: string)
    requires key in cache && forall i | 0 <= i < |events| :: LeavesAlone(events[i], key)
    ensures key in RunAll(cache, ttl, events) && RunAll(cache, ttl, events)[key] == cache[key]
    decreases |events|
  {
    if events != [] {
      assert LeavesAlone(events[0], key);
      assert forall i | 0 <= i < |events[1..]| :: events[1..][i] == events[i + 1];
      EntryStays(After(cache, ttl, events[0]), ttl, events[1..], key);
    }
  }

  /**
   What the store answers a principal is answered again, without the store, to
   the same principal with the same scopes for ttl, whatever others ask
   meanwhile.
  */
  lemma AnswerIsReused(cache: Cache, ttl: int, e: Event, others: seq<Event>, again: Event)
    requires Asks(cache, ttl, e) && e.stored.Some? && again.Ask? && again.session == e.session
    requires again.now < e.now + ttl && e.now < e.now + ttl
    requires forall i | 0 <= i < |others| :: LeavesAlone(others[i], e.session.value.principalKey)
    ensures var later := RunAll(After(cache, ttl, e), ttl, others);
      !Asks(later, ttl, again) && Answer(later, ttl, again) == e.stored
  {
    EntryStays(After(cache, ttl, e), ttl, others, e.session.value.principalKey);
  }
}
