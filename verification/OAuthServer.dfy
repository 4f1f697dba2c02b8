/**
 The authorization server's objects, in the form the program has them: a cache
 with Get, Set and Take, a store with its SQL statements, and a server whose
 handlers call them in order (internal/oauth/cache.go, token.go, consent.go,
 authorize.go; internal/store/oauth.go).

 Each handler, when nothing runs beside it, does what the step machine's run of
 that handler alone does. Clocks and randomness are parameters.
*/
module OAuthServer {
  import opened Wrappers
  import opened Scopes
  import opened OAuthState
  import opened OAuthMachine
  import OAuthTheorems

  // ---- the cache ----

  function Peek<K, V>(m: map<K, Entry<V>>, k: K, now: nat): Option<V> {
    if Hit(m, k, now) then Some(m[k].value) else None
  }

  /** The shared cache (RedisCache), one key prefix of it: Take is GETDEL. */
  class Cache<K(==), V> {
    var entries: map<K, Entry<V>>

    constructor ()
      ensures entries == map[]
    {
      entries := map[];
    }

    method Get(key: K, now: nat) returns (r: Option<V>)
      ensures r == Peek(entries, key, now)
    {
      if Hit(entries, key, now) { return Some(entries[key].value); }
      return None;
    }

    method Set(key: K, value: V, ttl: int, now: nat)
      modifies this
      ensures entries == old(entries)[key := NewEntry(value, now, ttl)]
    {
      entries := entries[key := NewEntry(value, now, ttl)];
    }

    method Take(key: K, now: nat) returns (r: Option<V>)
      modifies this
      ensures r == Peek(old(entries), key, now)
      ensures entries == if r.Some? then old(entries) - {key} else old(entries)
    {
      r := Get(key, now);
      if r.Some? { entries := entries - {key}; }
    }
  }

  /** What a cache answers from `now` on. */
  ghost predicate SameAnswers<K(!new), V>(a: map<K, Entry<V>>, b: map<K, Entry<V>>, now: nat) {
    forall k, t: nat | t >= now :: Peek(a, k, t) == Peek(b, k, t)
  }

  /**
   MemoryCache: a Get or Take that finds an entry past its deadline deletes it.
   No later call can tell, so it answers as the shared cache does.
  */
  class MemoryCache<K(==, !new), V> {
    var entries: map<K, Entry<V>>

    constructor ()
      ensures entries == map[]
    {
      entries := map[];
    }

    method Get(key: K, now: nat) returns (r: Option<V>)
      modifies this
      ensures r == Peek(old(entries), key, now)
      ensures SameAnswers(entries, old(entries), now)
    {
      if key !in entries || (entries[key].expires.Some? && now > entries[key].expires.value) {
        entries := entries - {key};
        return None;
      }
      return Some(entries[key].value);
    }

    method Set(key: K, value: V, ttl: int, now: nat)
      modifies this
      ensures entries == old(entries)[key := NewEntry(value, now, ttl)]
    {
      var expires := None;
      if ttl > 0 {
        expires := Some(now + ttl);
      }
      entries := entries[key := Entry(value, expires)];
    }

    method Take(key: K, now: nat) returns (r: Option<V>)
      modifies this
      ensures r == Peek(old(entries), key, now)
      ensures SameAnswers(entries, old(entries) - {key}, now)
    {
      r := Get(key, now);
      ghost var kept := entries;
      if r.None? { return; }
      entries := entries - {key};
      forall k, t: nat | t >= now ensures Peek(entries, k, t) == Peek(old(entries) - {key}, k, t) {
        assert Peek(kept, k, t) == Peek(old(entries), k, t);
      }
    }

    method Delete(key: K)
      modifies this
      ensures entries == old(entries) - {key}
    {
      entries := entries - {key};
    }
  }

  /** Caches that answer alike still do after the same Set. */
  lemma SetKeepsAnswers<K(!new), V>(a: map<K, Entry<V>>, b: map<K, Entry<V>>, key: K, value: V, ttl: int, now: nat)
    requires SameAnswers(a, b, now)
    ensures SameAnswers(a[key := NewEntry(value, now, ttl)], b[key := NewEntry(value, now, ttl)], now)
  {
    var e := NewEntry(value, now, ttl);
    var a', b' := a[key := e], b[key := e];
    forall k, t: nat | t >= now ensures Peek(a', k, t) == Peek(b', k, t) {
      assert Peek(a, k, t) == Peek(b, k, t);
    }
  }

  // ---- the store ----

  /** The users and oauth_refresh_tokens tables; each method is one statement. */
  class Store {
    var people: People
    var tokens: map<Digest, Row>

    constructor ()
      ensures people == People(map[], map[], 1) && tokens == map[]
    {
      people := People(map[], map[], 1);
      tokens := map[];
    }

    method UpsertUser(who: Identity) returns (id: nat)
      modifies this`people
      ensures people == Upsert(old(people), who) && id == UpsertedID(old(people), who)
    {
      if who.person in people.ids {
        id := people.ids[who.person];
      } else {
        id := people.next;
        people := people.(ids := people.ids[who.person := id], next := id + 1);
      }
      people := people.(users := people.users[id := User(who.person, who.email, who.login)]);
    }

    method InsertRefreshToken(hash: Digest, family: Secret, userID: nat, clientID: string, scope: string, now: nat)
      modifies this`tokens
      ensures tokens == InsertRow(old(tokens), hash, family, userID, clientID, scope, now)
    {
      tokens := tokens[hash := Row(family, userID, clientID, scope, now, None, None)];
    }

    /** rotated is false when the token `used` is not live, and then nothing changes. */
    method RotateRefreshToken(used: Digest, next: Digest, scope: string, now: nat) returns (rotated: bool)
      modifies this`tokens
      ensures rotated == (used in old(tokens) && old(tokens)[used].Live())
      ensures tokens == if rotated then RotateRow(old(tokens), used, next, scope, now) else old(tokens)
    {
      if used !in tokens || tokens[used].lastUsedAt.Some? || tokens[used].revokedAt.Some? { return false; }
      var row := tokens[used];
      tokens := tokens[used := row.(lastUsedAt := Some(now))];
      InsertRefreshToken(next, row.family, row.userID, row.clientID, scope, now);
      return true;
    }

    /** Returns how many rows it revoked. */
    method RevokeRefreshFamily(family: Secret, now: nat) returns (affected: nat)
      modifies this`tokens
      ensures tokens == RevokeRows(old(tokens), family, now)
      ensures affected == |set d | d in old(tokens) && old(tokens)[d].family == family && old(tokens)[d].revokedAt.None?|
    {
      affected := |set d | d in tokens && tokens[d].family == family && tokens[d].revokedAt.None?|;
      tokens := map d | d in tokens ::
        if tokens[d].family == family && tokens[d].revokedAt.None? then tokens[d].(revokedAt := Some(now)) else tokens[d];
    }
  }

  // ---- what a handler does when nothing runs beside it ----

  datatype Shared = Shared(
    pendings: map<Secret, Entry<Pending>>, codes: map<Digest, Entry<Code>>, redeemed: map<Digest, Entry<Secret>>,
    people: People, tokens: map<Digest, Row>)

  datatype Effect = Effect(outcome: Outcome, after: Shared)

  function SharedOf(s: State): Shared {
    Shared(s.pendings, s.codes, s.redeemed, s.people, s.tokens)
  }

  function ViewEffect(sh: Shared, now: nat, id: Secret, principal: Principal): Effect {
    if !Hit(sh.pendings, id, now) then Effect(NotFound, sh)
    else
      var p := sh.pendings[id].value;
      if now >= p.expiresAt || (p.session != "" && p.session != principal.session) then Effect(NotFound, sh)
      else if p.session != "" then Effect(Viewed, sh)
      else
        var bound := p.(session := principal.session);
        Effect(Viewed, sh.(pendings := sh.pendings[id := NewEntry(bound, now, p.expiresAt - now)]))
  }

  function DecideEffect(sh: Shared, now: nat, id: Secret, principal: Principal, allow: bool, raw: Secret): Effect {
    if !Hit(sh.pendings, id, now) then Effect(NotFound, sh)
    else
      var p := sh.pendings[id].value;
      if now >= p.expiresAt || p.session == "" || p.session != principal.session then Effect(NotFound, sh)
      else
        var taken := sh.(pendings := sh.pendings - {id});
        if !allow then Effect(Denied, taken)
        else
          var c := Code(p, UpsertedID(sh.people, principal.identity), principal.identity, Granted(p.scopes, principal.scopes));
          Effect(Redirected(raw), taken.(
            people := Upsert(sh.people, principal.identity),
            codes := sh.codes[Digest(raw) := NewEntry(c, now, CODE_TTL)]))
  }

  function RedeemEffect(sh: Shared, env: Env, now: nat, h: nat, form: RedeemForm, family: Secret, refresh: Secret): Effect {
    if form.code.None? then Effect(Rejected(MissingParameter), sh)
    else
      var k := Digest(form.code.value);
      if Hit(sh.redeemed, k, now) then
        var f := sh.redeemed[k].value;
        Effect(Rejected(ReplayedCode(f)), sh.(redeemed := sh.redeemed - {k}, tokens := RevokeRows(sh.tokens, f, now)))
      else if !Hit(sh.codes, k, now) then Effect(Rejected(UnknownCode), sh)
      else
        var c := sh.codes[k].value;
        var taken := sh.(codes := sh.codes - {k});
        match CheckCode(env, form, c.pending)
        case Some(e) => Effect(Rejected(e), taken)
        case None =>
          var access := Access(h, k, family, c.identity.person, c.pending.clientID, c.granted, false);
          Effect(Issued(access, refresh, JoinScopes(c.granted)), taken.(
            tokens := InsertRow(sh.tokens, Digest(refresh), family, c.userID, c.pending.clientID, JoinScopes(c.granted), now),
            redeemed := sh.redeemed[k := NewEntry(family, now, REDEEMED_TTL)]))
  }

  function Ended(sh: Shared, now: nat, family: Secret, error: TokenError): Effect {
    Effect(Rejected(error), sh.(tokens := RevokeRows(sh.tokens, family, now)))
  }

  function RefreshEffect(sh: Shared, env: Env, now: nat, grantable: set<string>, h: nat, ask: RefreshForm, next: Secret): Effect {
    if ask.token.None? then Effect(Rejected(MissingParameter), sh)
    else
      var used := Digest(ask.token.value);
      if used !in sh.tokens then Effect(Rejected(UnknownToken), sh)
      else
        var row := sh.tokens[used];
        if row.userID !in sh.people.users then Effect(Rejected(NoSuchUser), sh)
        else if row.revokedAt.Some? then Effect(Rejected(RevokedToken), sh)
        else if row.lastUsedAt.Some? then Ended(sh, now, row.family, ReusedToken(row.family))
        else if now > row.issuedAt + env.refreshTTL then Ended(sh, now, row.family, DisusedToken(row.family))
        else if ask.clientID != "" && ask.clientID != row.clientID then Effect(Rejected(WrongClient), sh)
        else
          match Refreshed(row.scope, ask.scope, grantable)
          case None => Effect(Rejected(ScopeNotGranted), sh)
          case Some(scopes) =>
            var access := Access(h, used, row.family, sh.people.users[row.userID].person, row.clientID, scopes, true);
            Effect(Issued(access, next, JoinScopes(scopes)),
              sh.(tokens := RotateRow(sh.tokens, used, Digest(next), JoinScopes(scopes), now)))
  }

  function RevokeEffect(sh: Shared, now: nat, token: Option<Secret>): Effect {
    if token.None? then Effect(Rejected(MissingParameter), sh)
    else if Digest(token.value) !in sh.tokens then Effect(NothingToRevoke, sh)
    else
      var f := sh.tokens[Digest(token.value)].family;
      Effect(RevokedFamily(f), sh.(tokens := RevokeRows(sh.tokens, f, now)))
  }

  function CallEffect(s: State, h: nat, call: Call, first: Secret, second: Secret): Effect {
    var sh := SharedOf(s);
    match call
    case View(id, principal) => ViewEffect(sh, s.now, id, principal)
    case Decide(id, principal, allow) => DecideEffect(sh, s.now, id, principal, allow, first)
    case Redeem(form) => RedeemEffect(sh, s.env, s.now, h, form, first, second)
    case Refresh(ask) => RefreshEffect(sh, s.env, s.now, s.grantable, h, ask, first)
    case Revoke(token) => RevokeEffect(sh, s.now, token)
  }

  /** No handler takes more than four operations. */
  function Alone(s: State, h: nat, call: Call, first: Secret, second: Secret): (t: State)
    ensures h in t.handlers
  {
    DoAdvance(DoAdvance(DoAdvance(DoBegin(s, h, call), h, first, second), h, first, second), h, first, second)
  }

  ghost predicate Ran(s: State, h: nat, call: Call, first: Secret, second: Secret) {
    var t := Alone(s, h, call, first, second);
    var e := CallEffect(s, h, call, first, second);
    t.handlers[h] == Done(e.outcome) && SharedOf(t) == e.after
  }

  lemma DoneStays(s: State, h: nat, first: Secret, second: Secret)
    requires h in s.handlers && s.handlers[h].Done?
    ensures DoAdvance(s, h, first, second) == s
  {
  }

  lemma ViewRan(s: State, h: nat, id: Secret, principal: Principal, first: Secret, second: Secret)
    ensures Ran(s, h, View(id, principal), first, second)
  {
    var t := DoBegin(s, h, View(id, principal));
    var u := DoAdvance(t, h, first, second);
    assert u.handlers[h].Done?;
    DoneStays(u, h, first, second);
  }

  lemma RevokeRan(s: State, h: nat, token: Option<Secret>, first: Secret, second: Secret)
    ensures Ran(s, h, Revoke(token), first, second)
  {
    var t := DoBegin(s, h, Revoke(token));
    var u := DoAdvance(t, h, first, second);
    assert u.handlers[h].Done?;
    DoneStays(u, h, first, second);
  }

  /** h is at pc in t, which shares sh; the settings are those of s. */
  ghost predicate Reaches(s: State, t: State, h: nat, pc: Handler, sh: Shared) {
    h in t.handlers && t.handlers[h] == pc && SharedOf(t) == sh && t.now == s.now && t.env == s.env && t.grantable == s.grantable
  }

  lemma Consumes(s: State, h: nat, id: Secret, principal: Principal, allow: bool, p: Pending, a: Secret, b: Secret)
    requires h in s.handlers && s.handlers[h] == Consuming(id, principal, allow, p) && Hit(s.pendings, id, s.now)
    ensures Reaches(s, DoAdvance(s, h, a, b), h, if allow then Recording(principal, p) else Done(Denied),
                    SharedOf(s).(pendings := s.pendings - {id}))
  {
  }

  lemma Codes(s: State, h: nat, principal: Principal, p: Pending, a: Secret, b: Secret)
    requires h in s.handlers && s.handlers[h] == Recording(principal, p)
    ensures var c := Code(p, UpsertedID(s.people, principal.identity), principal.identity, Granted(p.scopes, principal.scopes));
      Reaches(s, DoAdvance(DoAdvance(s, h, a, b), h, a, b), h, Done(Redirected(a)),
              SharedOf(s).(people := Upsert(s.people, principal.identity), codes := s.codes[Digest(a) := NewEntry(c, s.now, CODE_TTL)]))
  {
    var t := DoAdvance(s, h, a, b);
    assert Reaches(s, t, h, Coding(principal, p, UpsertedID(s.people, principal.identity)),
                   SharedOf(s).(people := Upsert(s.people, principal.identity)));
    hide Upsert, UpsertedID, Granted;
  }

  lemma DecideBegins(s: State, h: nat, id: Secret, principal: Principal, allow: bool)
    ensures Reaches(s, DoBegin(s, h, Decide(id, principal, allow)), h, DecidePc(s, id, principal, allow), SharedOf(s))
  {
    hide DecidePc, ViewPc, RefreshPc, RevokePc, Replay;
  }

  lemma DecideRan(s: State, h: nat, id: Secret, principal: Principal, allow: bool, a: Secret, b: Secret)
    ensures Ran(s, h, Decide(id, principal, allow), a, b)
  {
    hide DoAdvance, DoBegin, Upsert, UpsertedID, Granted;
    var t := DoBegin(s, h, Decide(id, principal, allow));
    DecideBegins(s, h, id, principal, allow);
    if t.handlers[h].Done? {
      DoneStays(t, h, a, b);
    } else {
      var p := s.pendings[id].value;
      Consumes(t, h, id, principal, allow, p, a, b);
      var u := DoAdvance(t, h, a, b);
      if allow {
        Codes(u, h, principal, p, a, b);
      } else {
        DoneStays(u, h, a, b);
      }
    }
  }

  lemma Revokes(s: State, h: nat, family: Secret, next: Outcome, a: Secret, b: Secret)
    requires h in s.handlers && s.handlers[h] == Revoking(family, next)
    ensures Reaches(s, DoAdvance(s, h, a, b), h, Done(next), SharedOf(s).(tokens := RevokeRows(s.tokens, family, s.now)))
  {
    hide RevokeRows;
  }

  lemma RedeemBegins(s: State, h: nat, form: RedeemForm)
    ensures var t := DoBegin(s, h, Redeem(form));
      if form.code.None? then Reaches(s, t, h, Done(Rejected(MissingParameter)), SharedOf(s))
      else
        var k := Digest(form.code.value);
        if Hit(s.redeemed, k, s.now) then
          var f := s.redeemed[k].value;
          Reaches(s, t, h, Revoking(f, Rejected(ReplayedCode(f))), SharedOf(s).(redeemed := s.redeemed - {k}))
        else Reaches(s, t, h, Taking(form.code.value, form), SharedOf(s))
  {
    hide DecidePc, ViewPc, RefreshPc, RevokePc;
  }

  lemma Takes(s: State, h: nat, code: Secret, form: RedeemForm, a: Secret, b: Secret)
    requires h in s.handlers && s.handlers[h] == Taking(code, form)
    ensures var t := DoAdvance(s, h, a, b);
      var k := Digest(code);
      if Hit(s.codes, k, s.now) then
        var c := s.codes[k].value;
        Reaches(s, t, h, match CheckCode(s.env, form, c.pending) case Some(e) => Done(Rejected(e)) case None => Starting(code, form, c),
                SharedOf(s).(codes := s.codes - {k}))
      else Reaches(s, t, h, Done(Rejected(UnknownCode)), SharedOf(s))
  {
    hide CheckCode;
  }

  lemma Starts(s: State, h: nat, code: Secret, form: RedeemForm, c: Code, a: Secret, b: Secret)
    requires h in s.handlers && s.handlers[h] == Starting(code, form, c)
    ensures var t := DoAdvance(DoAdvance(s, h, a, b), h, a, b);
      var access := Access(h, Digest(code), a, c.identity.person, c.pending.clientID, c.granted, false);
      Reaches(s, t, h, Done(Issued(access, b, JoinScopes(c.granted))), SharedOf(s).(
        tokens := InsertRow(s.tokens, Digest(b), a, c.userID, c.pending.clientID, JoinScopes(c.granted), s.now),
        redeemed := s.redeemed[Digest(code) := NewEntry(a, s.now, REDEEMED_TTL)]))
  {
    hide InsertRow, JoinScopes;
    assert Reaches(s, DoAdvance(s, h, a, b), h, Marking(code, c, a, b), SharedOf(s).(
        tokens := InsertRow(s.tokens, Digest(b), a, c.userID, c.pending.clientID, JoinScopes(c.granted), s.now)));
  }

  lemma RedeemRan(s: State, h: nat, form: RedeemForm, a: Secret, b: Secret)
    ensures Ran(s, h, Redeem(form), a, b)
  {
    hide DoAdvance, DoBegin, InsertRow, JoinScopes, CheckCode, RevokeRows;
    var t := DoBegin(s, h, Redeem(form));
    RedeemBegins(s, h, form);
    if t.handlers[h].Done? {
      DoneStays(t, h, a, b);
    } else if t.handlers[h].Revoking? {
      Revokes(t, h, t.handlers[h].family, t.handlers[h].next, a, b);
      DoneStays(DoAdvance(t, h, a, b), h, a, b);
    } else {
      Takes(t, h, form.code.value, form, a, b);
      var u := DoAdvance(t, h, a, b);
      if u.handlers[h].Done? {
        DoneStays(u, h, a, b);
      } else {
        Starts(u, h, form.code.value, form, u.handlers[h].c, a, b);
      }
    }
  }

  lemma RefreshBegins(s: State, h: nat, ask: RefreshForm)
    ensures Reaches(s, DoBegin(s, h, Refresh(ask)), h, RefreshPc(s, ask), SharedOf(s))
  {
    hide DecidePc, ViewPc, RefreshPc, RevokePc, Replay;
  }

  lemma Resolves(s: State, h: nat, token: Secret, ask: RefreshForm, current: Row, a: Secret, b: Secret)
    requires h in s.handlers && s.handlers[h] == Resolving(token, ask, current)
    ensures Reaches(s, DoAdvance(s, h, a, b), h, ResolvePc(s, token, ask, current), SharedOf(s))
  {
    hide ResolvePc;
  }

  lemma Rotates(s: State, h: nat, token: Secret, current: Row, user: User, scopes: seq<string>, a: Secret, b: Secret)
    requires h in s.handlers && s.handlers[h] == Rotating(token, current, user, scopes)
    requires Digest(token) in s.tokens && s.tokens[Digest(token)].Live()
    ensures var access := Access(h, Digest(token), current.family, user.person, current.clientID, scopes, true);
      Reaches(s, DoAdvance(s, h, a, b), h, Done(Issued(access, a, JoinScopes(scopes))),
              SharedOf(s).(tokens := RotateRow(s.tokens, Digest(token), Digest(a), JoinScopes(scopes), s.now)))
  {
    hide RotateRow, JoinScopes;
  }

  lemma RefreshRan(s: State, h: nat, ask: RefreshForm, a: Secret, b: Secret)
    ensures Ran(s, h, Refresh(ask), a, b)
  {
    hide DoAdvance, DoBegin, RotateRow, JoinScopes, Refreshed, RevokeRows;
    var t := DoBegin(s, h, Refresh(ask));
    RefreshBegins(s, h, ask);
    if t.handlers[h].Done? {
      DoneStays(t, h, a, b);
    } else {
      var token, current := ask.token.value, s.tokens[Digest(ask.token.value)];
      Resolves(t, h, token, ask, current, a, b);
      var u := DoAdvance(t, h, a, b);
      match u.handlers[h]
      case Revoking(f, next) =>
        Revokes(u, h, f, next, a, b);
        DoneStays(DoAdvance(u, h, a, b), h, a, b);
      case Rotating(_, _, user, scopes) =>
        Rotates(u, h, token, current, user, scopes, a, b);
        DoneStays(DoAdvance(u, h, a, b), h, a, b);
      case _ =>
        DoneStays(u, h, a, b);
    }
  }

  /**
   Every handler, with nothing running beside it, answers and writes as its
   effect says.
  */
  lemma AloneHasItsEffect(s: State, h: nat, call: Call, first: Secret, second: Secret)
    ensures Ran(s, h, call, first, second)
  {
    hide Ran;
    match call
    case View(id, principal) => ViewRan(s, h, id, principal, first, second);
    case Decide(id, principal, allow) => DecideRan(s, h, id, principal, allow, first, second);
    case Redeem(form) => RedeemRan(s, h, form, first, second);
    case Refresh(ask) => RefreshRan(s, h, ask, first, second);
    case Revoke(token) => RevokeRan(s, h, token, first, second);
  }

  // ---- that is a run of the machine ----

  predicate Draws(pc: Handler) {
    pc.Coding? || pc.Starting? || pc.Rotating?
  }

  /** Past the step that draws. */
  predicate Past(pc: Handler) {
    pc.Done? || pc.Marking? || pc.Revoking?
  }

  lemma DrawsOnce(s: State, h: nat, a: Secret, b: Secret)
    requires h in s.handlers && Draws(s.handlers[h])
    ensures Past(DoAdvance(s, h, a, b).handlers[h]) && DoAdvance(s, h, a, b).drawn <= s.drawn + {a, b}
  {
    hide InsertRow, RotateRow, CheckCode, JoinScopes, Bind, Consume, Record, TakeCode, ResolvePc, FinishRevoking;
  }

  lemma DrawsNothing(s: State, h: nat, a: Secret, b: Secret, c: Secret, d: Secret)
    requires h in s.handlers && !Draws(s.handlers[h])
    ensures DoAdvance(s, h, a, b) == DoAdvance(s, h, c, d)
  {
    hide Bind, Consume, Record, IssueCode, TakeCode, StartFamily, MarkRedeemed, ResolvePc, Rotate, FinishRevoking;
  }

  lemma KeepsDrawn(s: State, h: nat, a: Secret, b: Secret)
    requires h in s.handlers && !Draws(s.handlers[h])
    ensures DoAdvance(s, h, a, b).drawn == s.drawn
  {
    var pc := s.handlers[h];
    if pc.Viewing? || pc.Consuming? || pc.Recording? {
      ConsentKeepsDrawn(s, h, a, b);
    } else {
      TokenKeepsDrawn(s, h, a, b);
    }
    hide DoAdvance;
  }

  lemma ConsentKeepsDrawn(s: State, h: nat, a: Secret, b: Secret)
    requires h in s.handlers && (s.handlers[h].Viewing? || s.handlers[h].Consuming? || s.handlers[h].Recording?)
    ensures DoAdvance(s, h, a, b).drawn == s.drawn
  {
    hide Upsert, UpsertedID;
  }

  lemma TokenKeepsDrawn(s: State, h: nat, a: Secret, b: Secret)
    requires h in s.handlers && !Draws(s.handlers[h])
    requires !s.handlers[h].Viewing? && !s.handlers[h].Consuming? && !s.handlers[h].Recording?
    ensures DoAdvance(s, h, a, b).drawn == s.drawn
  {
    hide ResolvePc, CheckCode, RevokeRows, JoinScopes, InsertRow, RotateRow, Bind, Consume, Record, IssueCode;
  }

  lemma StaysPast(s: State, h: nat, a: Secret, b: Secret)
    requires h in s.handlers && Past(s.handlers[h])
    ensures Past(DoAdvance(s, h, a, b).handlers[h])
  {
    hide RevokeRows;
  }

  /** h has drawn nothing since `drawn`, or is past drawing. */
  ghost predicate Drawing(s: State, h: nat, drawn: set<Secret>, a: Secret, b: Secret) {
    h in s.handlers && s.drawn <= drawn + {a, b} && (s.drawn == drawn || Past(s.handlers[h]))
  }

  lemma AdvanceIsAStep(s: State, h: nat, drawn: set<Secret>, a: Secret, b: Secret, c: Secret, d: Secret)
    requires h in s.handlers && Drawing(s, h, drawn, a, b)
    requires a !in drawn && b !in drawn && a != b && c !in drawn + {a, b} && d !in drawn + {a, b} && c != d
    ensures Drawing(DoAdvance(s, h, a, b), h, drawn, a, b)
    ensures DoAdvance(s, h, a, b) == Do(s, if s.drawn == drawn then Advance(h, a, b) else Advance(h, c, d))
  {
    if Draws(s.handlers[h]) {
      DrawsOnce(s, h, a, b);
    } else {
      KeepsDrawn(s, h, a, b);
      DrawsNothing(s, h, a, b, c, d);
      if Past(s.handlers[h]) {
        StaysPast(s, h, a, b);
      }
    }
    hide DoAdvance;
  }

  lemma BegunDrawing(s: State, h: nat, call: Call, a: Secret, b: Secret)
    ensures Drawing(DoBegin(s, h, call), h, s.drawn, a, b)
  {
    OAuthTheorems.BeginWrites(s, h, call);
    hide DoBegin;
  }

  /** What a handler does alone is a run of the machine, when its secrets have not been drawn. */
  lemma AloneIsARun(s: State, h: nat, call: Call, a: Secret, b: Secret)
    requires h !in s.handlers && a !in s.drawn && b !in s.drawn && a != b
    ensures exists actions :: Run(s, actions) == Alone(s, h, call, a, b)
  {
    hide DoAdvance, DoBegin, DoAuthorize, Drawing, Run, Above, Do;
    var c := Above(s.drawn + {a, b});
    BegunDrawing(s, h, call, a, b);
    BeginIs(s, h, call);
    var t := DoBegin(s, h, call);
    var a1, a2, a3 := ThreeSteps(t, h, s.drawn, a, b, c, c + 1);
    RunOfFour(s, Begin(h, call), a1, a2, a3);
  }

  lemma BeginIs(s: State, h: nat, call: Call)
    requires h !in s.handlers
    ensures Do(s, Begin(h, call)) == DoBegin(s, h, call)
  {
    hide DoBegin;
  }

  lemma ThreeSteps(s: State, h: nat, drawn: set<Secret>, a: Secret, b: Secret, c: Secret, d: Secret)
    returns (a1: Action, a2: Action, a3: Action)
    requires h in s.handlers && Drawing(s, h, drawn, a, b)
    requires a !in drawn && b !in drawn && a != b && c !in drawn + {a, b} && d !in drawn + {a, b} && c != d
    ensures h in DoAdvance(s, h, a, b).handlers && h in DoAdvance(DoAdvance(s, h, a, b), h, a, b).handlers
    ensures Do(Do(Do(s, a1), a2), a3) == DoAdvance(DoAdvance(DoAdvance(s, h, a, b), h, a, b), h, a, b)
  {
    hide Do, DoAdvance, Drawing;
    AdvanceIsAStep(s, h, drawn, a, b, c, d);
    var t := DoAdvance(s, h, a, b);
    AdvanceIsAStep(t, h, drawn, a, b, c, d);
    var u := DoAdvance(t, h, a, b);
    AdvanceIsAStep(u, h, drawn, a, b, c, d);
    a1 := if s.drawn == drawn then Advance(h, a, b) else Advance(h, c, d);
    a2 := if t.drawn == drawn then Advance(h, a, b) else Advance(h, c, d);
    a3 := if u.drawn == drawn then Advance(h, a, b) else Advance(h, c, d);
  }

  lemma RunOfFour(s: State, a0: Action, a1: Action, a2: Action, a3: Action)
    ensures Run(s, [a0, a1, a2, a3]) == Do(Do(Do(Do(s, a0), a1), a2), a3)
  {
    hide Do;
    var t := Do(s, a0);
    assert [a0, a1, a2, a3][1..] == [a1, a2, a3] && [a1, a2, a3][1..] == [a2, a3];
    assert Run(t, [a1, a2, a3]) == Run(Do(t, a1), [a2, a3]);
    assert [a2, a3][1..] == [a3] && [a3][1..] == [];
    assert Run(Do(t, a1), [a2, a3]) == Run(Do(Do(t, a1), a2), [a3]);
  }

  // ---- the server ----

  class Server {
    const env: Env
    const grantable: set<string>
    const pendings: Cache<Secret, Pending>
    const codes: Cache<Digest, Code>
    const redeemed: Cache<Digest, Secret>
    const store: Store

    constructor (env: Env, scopeMap: set<string>)
      ensures this.env == env && grantable == scopeMap + {PUBLIC_READ}
      ensures Contents() == SharedOf(Initial(env))
      ensures fresh(pendings) && fresh(codes) && fresh(redeemed) && fresh(store)
    {
      this.env := env;
      grantable := scopeMap + {PUBLIC_READ};
      pendings := new Cache();
      codes := new Cache();
      redeemed := new Cache();
      store := new Store();
    }

    ghost function Contents(): Shared
      reads pendings, codes, redeemed, store
    {
      Shared(pendings.entries, codes.entries, redeemed.entries, store.people, store.tokens)
    }

    /** authorize, from the checks after the redirect is trusted; None is an error redirect. */
    method Authorize(ask: AuthRequest, id: Secret, now: nat) returns (stored: Option<Secret>)
      modifies pendings
      ensures forall s: State | SharedOf(s) == old(Contents()) && s.env == env && s.grantable == grantable && s.now == now ::
        SharedOf(DoAuthorize(s, id, ask)) == Contents() && (stored.Some? <==> AuthorizeScopes(s, ask).Some?)
      ensures stored.Some? ==> stored.value == id
    {
      stored := None;
      if ask.challengeMethod != "S256" || !ValidPKCE(ask.challenge) { return; }
      if ask.resource != env.audience { return; }
      var scopes := RequestedScopes(ask.scope, grantable);
      if scopes.Err? || ask.state == "" { return; }
      var p := Pending(ask.clientID, ask.redirectURI, ask.challenge, scopes.value, now + PENDING_TTL, "");
      pendings.Set(id, p, PENDING_TTL, now);
      return Some(id);
    }

    method LoadPending(id: Secret, now: nat) returns (p: Option<Pending>)
      ensures p == match Peek(pendings.entries, id, now)
                   case None => None
                   case Some(found) => if now < found.expiresAt then Some(found) else None
    {
      p := pendings.Get(id, now);
      if p.Some? && now >= p.value.expiresAt { return None; }
    }

    method GetAuthorization(id: Secret, principal: Principal, now: nat) returns (outcome: Outcome)
      modifies pendings
      ensures Effect(outcome, Contents()) == ViewEffect(old(Contents()), now, id, principal)
    {
      var found := LoadPending(id, now);
      if found.None? { return NotFound; }
      var p := found.value;
      if p.session != "" && p.session != principal.session { return NotFound; }
      if p.session == "" {
        p := p.(session := principal.session);
        pendings.Set(id, p, p.expiresAt - now, now);
      }
      return Viewed;
    }

    method DecideAuthorization(id: Secret, principal: Principal, allow: bool, raw: Secret, now: nat) returns (outcome: Outcome)
      modifies pendings, codes, store`people
      ensures Effect(outcome, Contents()) == DecideEffect(old(Contents()), now, id, principal, allow, raw)
    {
      var found := LoadPending(id, now);
      if found.None? { return NotFound; }
      var p := found.value;
      if p.session == "" || p.session != principal.session { return NotFound; }
      var taken := pendings.Take(id, now);
      if taken.None? { return NotFound; }
      if !allow { return Denied; }
      var userID := store.UpsertUser(principal.identity);
      var granted := Intersect(p.scopes, principal.scopes);
      codes.Set(Digest(raw), Code(p, userID, principal.identity, granted), CODE_TTL, now);
      return Redirected(raw);
    }

    method RedeemCode(h: nat, form: RedeemForm, family: Secret, refresh: Secret, now: nat) returns (outcome: Outcome)
      modifies codes, redeemed, store`tokens
      ensures Effect(outcome, Contents()) == RedeemEffect(old(Contents()), env, now, h, form, family, refresh)
    {
      if form.code.None? { return Rejected(MissingParameter); }
      var key := Digest(form.code.value);
      var replayed := redeemed.Take(key, now);
      if replayed.Some? {
        RevokeFamily(replayed.value, now);
        return Rejected(ReplayedCode(replayed.value));
      }
      var stored := codes.Take(key, now);
      if stored.None? { return Rejected(UnknownCode); }
      var c := stored.value;
      var refused := CheckCode(env, form, c.pending);
      if refused.Some? { return Rejected(refused.value); }
      NewFamily(c, key, family, refresh, now);
      var access := Access(h, key, family, c.identity.person, c.pending.clientID, c.granted, false);
      return Issued(access, refresh, JoinScopes(c.granted));
    }

    method NewFamily(c: Code, key: Digest, family: Secret, refresh: Secret, now: nat)
      modifies redeemed, store`tokens
      ensures store.tokens ==
        InsertRow(old(store.tokens), Digest(refresh), family, c.userID, c.pending.clientID, JoinScopes(c.granted), now)
      ensures redeemed.entries == old(redeemed.entries)[key := NewEntry(family, now, REDEEMED_TTL)]
    {
      store.InsertRefreshToken(Digest(refresh), family, c.userID, c.pending.clientID, JoinScopes(c.granted), now);
      redeemed.Set(key, family, REDEEMED_TTL, now);
    }

    method RevokeFamily(family: Secret, now: nat)
      modifies store`tokens
      ensures store.tokens == RevokeRows(old(store.tokens), family, now)
    {
      var _ := store.RevokeRefreshFamily(family, now);
    }

    /** Reuse and disuse end the family before they are refused. */
    method Refreshable(current: Row, clientID: string, now: nat) returns (refused: Option<TokenError>)
      modifies store`tokens
      ensures forall s: State | s.env == env && s.now == now :: refused == OAuthState.Refreshable(s, current, clientID)
      ensures store.tokens ==
        if refused.Some? && Rejected(refused.value).Ended().Some?
        then RevokeRows(old(store.tokens), current.family, now) else old(store.tokens)
    {
      if current.revokedAt.Some? { return Some(RevokedToken); }
      if current.lastUsedAt.Some? {
        RevokeFamily(current.family, now);
        return Some(ReusedToken(current.family));
      }
      if now > current.issuedAt + env.refreshTTL {
        RevokeFamily(current.family, now);
        return Some(DisusedToken(current.family));
      }
      if clientID != "" && clientID != current.clientID { return Some(WrongClient); }
      return None;
    }

    method Refresh(h: nat, ask: RefreshForm, next: Secret, now: nat) returns (outcome: Outcome)
      modifies store`tokens
      ensures Effect(outcome, Contents()) == RefreshEffect(old(Contents()), env, now, grantable, h, ask, next)
    {
      if ask.token.None? { return Rejected(MissingParameter); }
      var used := Digest(ask.token.value);
      if used !in store.tokens { return Rejected(UnknownToken); }
      var current := store.tokens[used];
      if current.userID !in store.people.users { return Rejected(NoSuchUser); }
      var user := store.people.users[current.userID];
      ghost var s := Initial(env).(now := now);
      assert s.env == env && s.now == now;
      var refused := Refreshable(current, ask.clientID, now);
      assert refused == OAuthState.Refreshable(s, current, ask.clientID);
      if refused.Some? { return Rejected(refused.value); }
      var scopes := RefreshScopes(current.scope, ask.scope, grantable);
      if scopes.None? { return Rejected(ScopeNotGranted); }
      outcome := Rotate(h, used, current, user, scopes.value, next, now);
    }

    /** The end of Refresh, whose `current` may be out of date: a token no longer live is reuse. */
    method Rotate(h: nat, used: Digest, current: Row, user: User, scopes: seq<string>, next: Secret, now: nat)
      returns (outcome: Outcome)
      modifies store`tokens
      ensures
        if used in old(store.tokens) && old(store.tokens)[used].Live() then
          && outcome == Issued(Access(h, used, current.family, user.person, current.clientID, scopes, true), next, JoinScopes(scopes))
          && store.tokens == RotateRow(old(store.tokens), used, Digest(next), JoinScopes(scopes), now)
        else
          && outcome == Rejected(ReusedToken(current.family))
          && store.tokens == RevokeRows(old(store.tokens), current.family, now)
    {
      var rotated := store.RotateRefreshToken(used, Digest(next), JoinScopes(scopes), now);
      if !rotated {
        RevokeFamily(current.family, now);
        return Rejected(ReusedToken(current.family));
      }
      var access := Access(h, used, current.family, user.person, current.clientID, scopes, true);
      return Issued(access, next, JoinScopes(scopes));
    }

    method Revoke(token: Option<Secret>, now: nat) returns (outcome: Outcome)
      modifies store`tokens
      ensures Effect(outcome, Contents()) == RevokeEffect(old(Contents()), now, token)
    {
      if token.None? { return Rejected(MissingParameter); }
      if Digest(token.value) !in store.tokens { return NothingToRevoke; }
      var family := store.tokens[Digest(token.value)].family;
      RevokeFamily(family, now);
      return RevokedFamily(family);
    }
  }
}
