/** What every step of the authorization server keeps. */
module OAuthInvariant {
  import opened Wrappers
  import opened Scopes
  import opened OAuthState
  import opened OAuthMachine

  /** p is the request as stored, but for the session it is bound to. */
  predicate Matches(p: Pending, r: Request) {
    p.clientID == r.clientID && p.challenge == r.challenge && p.scopes == r.scopes && p.expiresAt == r.deadline
  }

  predicate Within(scopes: seq<string>, grant: seq<string>) {
    forall sc :: sc in scopes ==> sc == PUBLIC_READ || sc in grant
  }

  /** The parts of a row that no statement changes. */
  predicate SameLine(a: Row, b: Row) {
    a.family == b.family && a.userID == b.userID && a.clientID == b.clientID && a.scope == b.scope
  }

  // ---- facts that stay true once they are ----

  ghost predicate RequestOk(s: State, id: Secret)
    requires id in s.hist.requests
  {
    id in s.drawn && AllWords(s.hist.requests[id].scopes)
  }

  ghost predicate DecisionOk(s: State, h: nat)
    requires h in s.hist.decisions
  {
    var d := s.hist.decisions[h];
    && d.id in s.hist.requests
    && Matches(d.p, s.hist.requests[d.id])
    && AllWords(d.p.scopes)
    && d.p.session == d.principal.session
  }

  /** A code holds what its deciding handler saw and who decided. */
  ghost predicate CodeOk(s: State, k: Digest)
    requires k in s.hist.codes
  {
    var o := s.hist.codes[k];
    && k.raw in s.drawn
    && o.decider in s.hist.issued && s.hist.issued[o.decider] == k
    && o.decider in s.hist.decisions
    && var d := s.hist.decisions[o.decider];
      && d.allow
      && o.c.pending == d.p
      && o.c.identity == d.principal.identity
      && o.c.granted == Granted(d.p.scopes, d.principal.scopes)
      && AllWords(o.c.granted)
      && o.c.userID in s.people.users && s.people.users[o.c.userID].person == o.c.identity.person
  }

  ghost predicate FamilyOk(s: State, f: Secret)
    requires f in s.hist.families
  {
    var k := s.hist.families[f].code;
    && f in s.drawn
    && k in s.hist.consumed && k in s.hist.codes
    && k in s.hist.started && s.hist.started[k] == f
    && s.env.s256(s.hist.families[f].verifier) == s.hist.codes[k].c.pending.challenge
  }

  /** c is the code record that family was started from. */
  ghost predicate From(s: State, family: Secret, c: Code) {
    && family in s.hist.families
    && s.hist.families[family].code in s.hist.codes
    && s.hist.codes[s.hist.families[family].code].c == c
  }

  ghost predicate LineOk(s: State, row: Row) {
    && row.family in s.hist.families
    && s.hist.families[row.family].code in s.hist.codes
    && var c := s.hist.codes[s.hist.families[row.family].code].c;
      && row.userID == c.userID
      && row.clientID == c.pending.clientID
      && Within(Fields(row.scope), c.granted)
  }

  ghost predicate AccessOk(s: State, h: nat)
    requires h in s.hist.minted
  {
    var a := s.hist.minted[h];
    && a.handler == h
    && a.family in s.hist.families
    && s.hist.families[a.family].code in s.hist.codes
    && (var c := s.hist.codes[s.hist.families[a.family].code].c;
        && a.person == c.identity.person
        && a.clientID == c.pending.clientID
        && Within(a.scopes, c.granted)
        && (!a.refreshed ==> a.scopes == c.granted))
    && (if a.refreshed
        then a.credential in s.hist.rotations && s.hist.rotations[a.credential] == h
             && a.credential in s.tokens && s.tokens[a.credential].family == a.family
        else a.credential in s.hist.consumed && s.hist.consumed[a.credential] == h
             && s.hist.families[a.family].code == a.credential)
  }

  // Each says that what s holds is right in t: t is s itself or a later state.

  ghost predicate RequestsOk(s: State, t: State) {
    forall id | id in s.hist.requests :: id in t.hist.requests && RequestOk(t, id)
  }

  ghost predicate DecisionsOk(s: State, t: State) {
    forall h | h in s.hist.decisions :: h in t.hist.decisions && DecisionOk(t, h)
  }

  ghost predicate CodesOk(s: State, t: State) {
    forall k | k in s.hist.codes :: k in t.hist.codes && CodeOk(t, k)
  }

  ghost predicate FamiliesOk(s: State, t: State) {
    forall f | f in s.hist.families :: f in t.hist.families && FamilyOk(t, f)
  }

  ghost predicate RowsOk(s: State, t: State) {
    && (forall d | d in s.tokens :: d in t.tokens && d.raw in t.drawn && LineOk(t, t.tokens[d]))
    && (forall d | d in s.hist.rotations :: d in t.tokens && t.tokens[d].lastUsedAt.Some?)
  }

  ghost predicate MintedOk(s: State, t: State) {
    forall h | h in s.hist.minted :: h in t.hist.minted && AccessOk(t, h)
  }

  ghost predicate Facts(s: State, t: State) {
    RequestsOk(s, t) && DecisionsOk(s, t) && CodesOk(s, t) && FamiliesOk(s, t) && RowsOk(s, t) && MintedOk(s, t)
  }

  // ---- the cache and the tables ----

  /** Ids and (provider, subject) pairs correspond one to one. */
  ghost predicate PeopleOk(p: People) {
    && (forall id | id in p.users :: id < p.next && p.users[id].person in p.ids && p.ids[p.users[id].person] == id)
    && (forall who | who in p.ids :: p.ids[who] in p.users && p.users[p.ids[who]].person == who)
  }

  ghost predicate PendingsOk(pendings: map<Secret, Entry<Pending>>, requests: map<Secret, Request>) {
    forall id | id in pendings :: id in requests && Matches(pendings[id].value, requests[id])
  }

  ghost predicate CacheOk(
    cached: map<Digest, Entry<Code>>, codes: map<Digest, CodeOrigin>, consumed: map<Digest, nat>)
  {
    && consumed.Keys <= codes.Keys
    && (forall k | k in cached :: k in codes && cached[k].value == codes[k].c && k !in consumed)
  }

  ghost predicate OneLive(tokens: map<Digest, Row>) {
    forall d, e | d in tokens && e in tokens && tokens[d].Live() && tokens[e].Live() && tokens[d].family == tokens[e].family :: d == e
  }

  /** The marker of a redeemed code is still in the cache, or a replay took it. */
  ghost predicate MarkersOk(
    redeemed: map<Digest, Entry<Secret>>, marked: map<Digest, nat>, consumed: map<Digest, nat>,
    started: map<Digest, Secret>, families: map<Secret, FamilyOrigin>, replays: map<Secret, nat>)
  {
    && (forall k | k in started :: k in consumed && started[k] in families && families[started[k]].code == k)
    && (forall k | k in marked :: k in started && (k in redeemed || started[k] in replays))
    && (forall k | k in redeemed ::
          k in marked && started[k] == redeemed[k].value && redeemed[k].expires == Some(marked[k] + REDEEMED_TTL))
    && (forall f | f in replays ::
          f in families && families[f].code in marked && started[families[f].code] == f && families[f].code !in redeemed)
  }

  ghost predicate Markers(s: State) {
    MarkersOk(s.redeemed, s.hist.marked, s.hist.consumed, s.hist.started, s.hist.families, s.hist.replays)
  }

  predicate Replaying(f: Secret, pc: Handler) {
    pc == Revoking(f, Rejected(ReplayedCode(f))) || pc == Done(Rejected(ReplayedCode(f)))
  }

  ghost predicate ReplaysOk(replays: map<Secret, nat>, handlers: map<nat, Handler>) {
    forall f | f in replays :: replays[f] in handlers && Replaying(f, handlers[replays[f]])
  }

  ghost predicate KeysOk(hist: History, handlers: map<nat, Handler>) {
    && hist.decisions.Keys <= handlers.Keys
    && hist.issued.Keys <= handlers.Keys
    && hist.minted.Keys <= handlers.Keys
    && (forall k | k in hist.consumed :: hist.consumed[k] in handlers)
  }

  // ---- handlers in flight ----

  ghost predicate HandlerOk(s: State, h: nat, pc: Handler) {
    && (h in s.hist.minted <==> pc.Done? && pc.outcome.Issued?)
    && match pc
    case Viewing(id, p) => id in s.hist.requests && Matches(p, s.hist.requests[id])
    case Consuming(id, principal, allow, p) =>
      && id in s.hist.requests && Matches(p, s.hist.requests[id]) && p.session == principal.session
      && h !in s.hist.decisions && h !in s.hist.issued
    case Recording(principal, p) => Decided(s.hist, h, principal, p)
    case Coding(principal, p, userID) =>
      && Decided(s.hist, h, principal, p)
      && userID in s.people.users && s.people.users[userID].person == principal.identity.person
    case Taking(code, form) => true
    case Starting(code, form, c) =>
      && Took(s.hist, h, Digest(code), c)
      && s.env.s256(form.verifier) == c.pending.challenge
      && Digest(code) !in s.hist.started
    case Marking(code, c, family, refresh) =>
      && Took(s.hist, h, Digest(code), c)
      && Digest(code) in s.hist.started && s.hist.started[Digest(code)] == family
      && family in s.hist.families && s.hist.families[family].code == Digest(code)
    case Resolving(token, ask, current) => Holds(s, token, current)
    case Rotating(token, current, user, scopes) =>
      && Holds(s, token, current)
      && current.userID in s.people.users && s.people.users[current.userID].person == user.person
      && AllWords(scopes) && Within(scopes, Fields(current.scope))
    case Revoking(family, next) => next.Ended() == Some(family) && family in s.hist.families
    case Done(outcome) =>
      && (outcome.Ended().Some? ==> outcome.Ended().value in s.hist.families && Dead(s.tokens, outcome.Ended().value))
      && (outcome.Issued? ==> s.hist.minted[h] == outcome.access)
  }

  ghost predicate Decided(hist: History, h: nat, principal: Principal, p: Pending) {
    && h in hist.decisions && h !in hist.issued
    && hist.decisions[h].allow
    && hist.decisions[h].principal == principal
    && hist.decisions[h].p == p
  }

  ghost predicate Took(hist: History, h: nat, k: Digest, c: Code) {
    && k in hist.consumed && hist.consumed[k] == h
    && k in hist.codes && hist.codes[k].c == c
    && k !in hist.marked
  }

  ghost predicate Holds(s: State, token: Secret, current: Row) {
    Digest(token) in s.tokens && SameLine(current, s.tokens[Digest(token)])
  }

  ghost predicate HandlersOk(s: State) {
    forall h | h in s.handlers :: HandlerOk(s, h, s.handlers[h])
  }

  ghost predicate Inv(s: State) {
    && Facts(s, s)
    && PeopleOk(s.people)
    && PendingsOk(s.pendings, s.hist.requests)
    && CacheOk(s.codes, s.hist.codes, s.hist.consumed)
    && OneLive(s.tokens)
    && Markers(s)
    && ReplaysOk(s.hist.replays, s.handlers)
    && KeysOk(s.hist, s.handlers)
    && HandlersOk(s)
  }

  // ---- one handler's step leaves every other fact alone ----

  ghost predicate Extends<K, V>(a: map<K, V>, b: map<K, V>) {
    forall k | k in a :: k in b && b[k] == a[k]
  }

  /** Rows keep their line, used rows stay used, and a dead family stays dead. */
  ghost predicate TokensGrow(families: map<Secret, FamilyOrigin>, a: map<Digest, Row>, b: map<Digest, Row>) {
    && (forall d | d in a :: d in b && SameLine(a[d], b[d]) && (a[d].lastUsedAt.Some? ==> b[d].lastUsedAt.Some?))
    && (forall f | f in families && Dead(a, f) :: Dead(b, f))
  }

  ghost predicate UsersGrow(a: map<nat, User>, b: map<nat, User>) {
    forall id | id in a :: id in b && b[id].person == a[id].person
  }

  lemma UpsertKeeps(p: People, who: Identity)
    requires PeopleOk(p)
    ensures var q := Upsert(p, who);
      && PeopleOk(q)
      && UsersGrow(p.users, q.users)
      && UpsertedID(p, who) in q.users && q.users[UpsertedID(p, who)].person == who.person
  {
  }

  lemma InsertGrows(families: map<Secret, FamilyOrigin>, tokens: map<Digest, Row>, hash: Digest, family: Secret, userID: nat, clientID: string, scope: string, now: nat)
    requires hash !in tokens
    requires forall d | d in tokens && tokens[d].family == family :: !tokens[d].Live()
    requires family in families ==> !Dead(tokens, family)
    ensures var after := InsertRow(tokens, hash, family, userID, clientID, scope, now);
      TokensGrow(families, tokens, after) && (OneLive(tokens) ==> OneLive(after))
  {
    var after := InsertRow(tokens, hash, family, userID, clientID, scope, now);
    forall f | f in families && Dead(tokens, f) ensures Dead(after, f) {
    }
  }

  lemma UseGrows(families: map<Secret, FamilyOrigin>, tokens: map<Digest, Row>, used: Digest, now: nat)
    requires used in tokens && tokens[used].Live() && OneLive(tokens)
    ensures var after := tokens[used := tokens[used].(lastUsedAt := Some(now))];
      && TokensGrow(families, tokens, after) && OneLive(after)
      && (forall d | d in after && after[d].family == tokens[used].family :: !after[d].Live())
      && !Dead(after, tokens[used].family)
  {
    var after := tokens[used := tokens[used].(lastUsedAt := Some(now))];
    forall f | f in families && Dead(tokens, f) ensures Dead(after, f) {
    }
    assert after[used].revokedAt.None?;
  }

  lemma RotateGrowsTokens(families: map<Secret, FamilyOrigin>, tokens: map<Digest, Row>, used: Digest, next: Digest, scope: string, now: nat)
    requires used in tokens && tokens[used].Live() && next !in tokens && OneLive(tokens)
    ensures var after := RotateRow(tokens, used, next, scope, now);
      TokensGrow(families, tokens, after) && OneLive(after)
  {
    var row := tokens[used];
    var mid := tokens[used := row.(lastUsedAt := Some(now))];
    UseGrows(families, tokens, used, now);
    InsertGrows(families, mid, next, row.family, row.userID, row.clientID, scope, now);
  }

  lemma RevokeGrows(families: map<Secret, FamilyOrigin>, tokens: map<Digest, Row>, family: Secret, now: nat)
    ensures var after := RevokeRows(tokens, family, now);
      TokensGrow(families, tokens, after) && (OneLive(tokens) ==> OneLive(after)) && Dead(after, family)
  {
  }

  /** From s to t the history only grows. */
  ghost predicate Grows(s: State, t: State) {
    && s.env == t.env
    && s.drawn <= t.drawn
    && Extends(s.hist.requests, t.hist.requests)
    && Extends(s.hist.decisions, t.hist.decisions)
    && Extends(s.hist.issued, t.hist.issued)
    && Extends(s.hist.codes, t.hist.codes)
    && Extends(s.hist.consumed, t.hist.consumed)
    && Extends(s.hist.started, t.hist.started)
    && Extends(s.hist.families, t.hist.families)
    && Extends(s.hist.marked, t.hist.marked)
    && Extends(s.hist.replays, t.hist.replays)
    && Extends(s.hist.rotations, t.hist.rotations)
    && Extends(s.hist.minted, t.hist.minted)
    && UsersGrow(s.people.users, t.people.users)
    && TokensGrow(s.hist.families, s.tokens, t.tokens)
  }

  /** What is new in t is handler h's doing. */
  ghost predicate Only(s: State, t: State, h: nat) {
    && t.hist.decisions.Keys <= s.hist.decisions.Keys + {h}
    && t.hist.issued.Keys <= s.hist.issued.Keys + {h}
    && t.hist.minted.Keys <= s.hist.minted.Keys + {h}
    && (forall k | k in t.hist.consumed && k !in s.hist.consumed :: t.hist.consumed[k] == h)
    && (forall k | k in t.hist.started && k !in s.hist.started :: k in t.hist.consumed && t.hist.consumed[k] == h)
    && (forall k | k in t.hist.marked && k !in s.hist.marked :: k in t.hist.consumed && t.hist.consumed[k] == h)
    && (forall f | f in t.hist.replays && f !in s.hist.replays :: t.hist.replays[f] == h)
  }

  lemma RequestsFrame(s: State, t: State)
    requires Grows(s, t) && RequestsOk(s, s) && DecisionsOk(s, s)
    ensures RequestsOk(s, t) && DecisionsOk(s, t)
  {
  }

  lemma CodesFrame(s: State, t: State)
    requires Grows(s, t) && CodesOk(s, s) && FamiliesOk(s, s)
    ensures CodesOk(s, t) && FamiliesOk(s, t)
  {
  }

  lemma RowsFrame(s: State, t: State)
    requires Grows(s, t) && RowsOk(s, s)
    ensures RowsOk(s, t)
  {
  }

  lemma MintedFrame(s: State, t: State)
    requires Grows(s, t) && MintedOk(s, s)
    ensures MintedOk(s, t)
  {
  }

  lemma FactsFrame(s: State, t: State)
    requires Grows(s, t) && Facts(s, s)
    ensures Facts(s, t)
  {
    hide RequestsOk, DecisionsOk, CodesOk, FamiliesOk, RowsOk, MintedOk;
    RequestsFrame(s, t);
    CodesFrame(s, t);
    RowsFrame(s, t);
    MintedFrame(s, t);
  }

  lemma HandlerFrame(s: State, t: State, h: nat, g: nat, pc: Handler)
    requires Grows(s, t) && Only(s, t, h) && g != h && HandlerOk(s, g, pc)
    ensures HandlerOk(t, g, pc)
  {
  }

  /** h moved to pc, along the last line of a replay if it was on it. */
  ghost predicate Moved(s: State, t: State, h: nat, pc: Handler) {
    && t.handlers == s.handlers[h := pc]
    && HandlerOk(t, h, pc)
    && (forall f | f in t.hist.replays && t.hist.replays[f] == h :: Replaying(f, pc))
  }

  lemma HandlersFrame(s: State, t: State, h: nat, pc: Handler)
    requires Grows(s, t) && Only(s, t, h) && Moved(s, t, h, pc)
    requires HandlersOk(s) && KeysOk(s.hist, s.handlers) && ReplaysOk(s.hist.replays, s.handlers)
    ensures HandlersOk(t) && KeysOk(t.hist, t.handlers) && ReplaysOk(t.hist.replays, t.handlers)
  {
    forall g | g in t.handlers ensures HandlerOk(t, g, t.handlers[g]) {
      if g != h {
        HandlerFrame(s, t, h, g, s.handlers[g]);
      }
    }
  }

  lemma InitialInv(env: Env)
    ensures Inv(Initial(env))
  {
  }

  // ---- steps that move one handler and nothing else ----

  lemma AtGrows(s: State, h: nat, pc: Handler)
    ensures Grows(s, At(s, h, pc)) && Only(s, At(s, h, pc), h)
  {
  }

  lemma AtFacts(s: State, h: nat, pc: Handler)
    requires Facts(s, s)
    ensures Facts(At(s, h, pc), At(s, h, pc))
  {
    AtGrows(s, h, pc);
    FactsFrame(s, At(s, h, pc));
  }

  lemma AtKeeps(s: State, h: nat, pc: Handler)
    requires Inv(s) && HandlerOk(s, h, pc)
    requires h in s.handlers ==> !s.handlers[h].Revoking? && !s.handlers[h].Done?
    ensures Inv(At(s, h, pc)) && Grows(s, At(s, h, pc))
  {
    hide Facts, PeopleOk, PendingsOk, CacheOk, OneLive, MarkersOk, KeysOk, Grows, Only;
    var t := At(s, h, pc);
    assert Moved(s, t, h, pc);
    hide HandlerOk, ReplaysOk, Moved;
    AtGrows(s, h, pc);
    HandlersFrame(s, t, h, pc);
    hide HandlersOk;
    AtFacts(s, h, pc);
  }

  lemma ViewPcOk(s: State, h: nat, id: Secret, principal: Principal)
    requires PendingsOk(s.pendings, s.hist.requests) && KeysOk(s.hist, s.handlers) && h !in s.handlers
    ensures HandlerOk(s, h, ViewPc(s, id, principal))
  {
  }

  lemma DecidePcOk(s: State, h: nat, id: Secret, principal: Principal, allow: bool)
    requires PendingsOk(s.pendings, s.hist.requests) && KeysOk(s.hist, s.handlers) && h !in s.handlers
    ensures HandlerOk(s, h, DecidePc(s, id, principal, allow))
  {
  }

  lemma RefreshPcOk(s: State, h: nat, ask: RefreshForm)
    requires KeysOk(s.hist, s.handlers) && h !in s.handlers
    ensures HandlerOk(s, h, RefreshPc(s, ask))
  {
  }

  lemma RevokePcOk(s: State, h: nat, token: Option<Secret>)
    requires RowsOk(s, s) && KeysOk(s.hist, s.handlers) && h !in s.handlers
    ensures HandlerOk(s, h, RevokePc(s, token))
  {
  }

  lemma ResolvePcOk(s: State, h: nat, token: Secret, ask: RefreshForm, current: Row)
    requires RowsOk(s, s)
    requires HandlerOk(s, h, Resolving(token, ask, current))
    ensures HandlerOk(s, h, ResolvePc(s, token, ask, current))
  {
    assert LineOk(s, s.tokens[Digest(token)]);
  }

  // ---- steps that write ----

  /** Facts of the new state: those of the old one, and those of what is new. */
  lemma FactsExtend(s: State, t: State)
    requires Facts(s, t)
    requires forall id | id in t.hist.requests && id !in s.hist.requests :: RequestOk(t, id)
    requires forall h | h in t.hist.decisions && h !in s.hist.decisions :: DecisionOk(t, h)
    requires forall k | k in t.hist.codes && k !in s.hist.codes :: CodeOk(t, k)
    requires forall f | f in t.hist.families && f !in s.hist.families :: FamilyOk(t, f)
    requires forall d | d in t.tokens && d !in s.tokens :: d.raw in t.drawn && LineOk(t, t.tokens[d])
    requires forall d | d in t.hist.rotations && d !in s.hist.rotations :: d in t.tokens && t.tokens[d].lastUsedAt.Some?
    requires forall h | h in t.hist.minted && h !in s.hist.minted :: AccessOk(t, h)
    ensures Facts(t, t)
  {
    assert RequestsOk(t, t) && DecisionsOk(t, t);
    assert CodesOk(t, t) && FamiliesOk(t, t);
    assert RowsOk(t, t) && MintedOk(t, t);
  }

  lemma WriteKeeps(s: State, t: State, h: nat)
    requires Inv(s) && h in t.handlers
    requires Grows(s, t) && Only(s, t, h) && Moved(s, t, h, t.handlers[h])
    requires Facts(t, t)
    requires PeopleOk(t.people) && PendingsOk(t.pendings, t.hist.requests)
    requires CacheOk(t.codes, t.hist.codes, t.hist.consumed) && OneLive(t.tokens)
    requires Markers(t)
    ensures Inv(t) && Grows(s, t)
  {
    hide Facts, PeopleOk, PendingsOk, CacheOk, OneLive, MarkersOk, Grows, Only, Moved, HandlerOk;
    HandlersFrame(s, t, h, t.handlers[h]);
  }

  lemma MarkersStart(
    redeemed: map<Digest, Entry<Secret>>, marked: map<Digest, nat>, consumed: map<Digest, nat>,
    started: map<Digest, Secret>, families: map<Secret, FamilyOrigin>, replays: map<Secret, nat>,
    k: Digest, f: Secret, verifier: string)
    requires MarkersOk(redeemed, marked, consumed, started, families, replays)
    requires k in consumed && k !in started && f !in families
    ensures MarkersOk(redeemed, marked, consumed, started[k := f], families[f := FamilyOrigin(k, verifier)], replays)
  {
  }

  lemma MarkersMark(
    redeemed: map<Digest, Entry<Secret>>, marked: map<Digest, nat>, consumed: map<Digest, nat>,
    started: map<Digest, Secret>, families: map<Secret, FamilyOrigin>, replays: map<Secret, nat>,
    k: Digest, now: nat)
    requires MarkersOk(redeemed, marked, consumed, started, families, replays)
    requires k in started && k !in marked
    ensures MarkersOk(redeemed[k := NewEntry(started[k], now, REDEEMED_TTL)], marked[k := now], consumed, started, families, replays)
  {
  }

  // redeemCode, taking a redeemed marker

  lemma ReplayWrites(s: State, t: State, h: nat, k: Digest)
    requires h !in s.handlers
    requires k in s.redeemed
    requires t == Replay(s, h, k)
    requires Markers(s)
    ensures Markers(t)
  {
  }

  lemma ReplayGrows(s: State, t: State, h: nat, k: Digest)
    requires h !in s.handlers
    requires k in s.redeemed
    requires t == Replay(s, h, k)
    requires Markers(s)
    ensures Grows(s, t) && Only(s, t, h)
  {
  }

  lemma ReplayMoved(s: State, t: State, h: nat, k: Digest)
    requires h !in s.handlers
    requires k in s.redeemed
    requires t == Replay(s, h, k)
    requires Markers(s)
    requires ReplaysOk(s.hist.replays, s.handlers)
    requires KeysOk(s.hist, s.handlers)
    ensures Moved(s, t, h, t.handlers[h])
  {
  }

  lemma ReplayKeeps(s: State, t: State, h: nat, k: Digest)
    requires h !in s.handlers
    requires k in s.redeemed
    requires t == Replay(s, h, k)
    requires Inv(s)
    ensures Inv(t) && Grows(s, t)
  {
    hide PeopleOk, PendingsOk, CacheOk, OneLive, MarkersOk, ReplaysOk, KeysOk, HandlerOk, HandlersOk, Moved, Grows, Only;
    hide RequestsOk, DecisionsOk, CodesOk, FamiliesOk, RowsOk, MintedOk;
    ReplayWrites(s, t, h, k);
    ReplayGrows(s, t, h, k);
    ReplayMoved(s, t, h, k);
    FactsFrame(s, t);
    hide Facts, RequestOk, DecisionOk, CodeOk, FamilyOk, LineOk, AccessOk;
    FactsExtend(s, t);
    WriteKeeps(s, t, h);
  }

  // getAuthorization, binding the request

  lemma BindWrites(s: State, t: State, h: nat, id: Secret, p: Pending)
    requires h in s.handlers && s.handlers[h] == Viewing(id, p)
    requires t == Bind(s, h, id, p)
    requires HandlerOk(s, h, Viewing(id, p))
    requires PendingsOk(s.pendings, s.hist.requests)
    ensures PendingsOk(t.pendings, t.hist.requests)
  {
  }

  lemma BindGrows(s: State, t: State, h: nat, id: Secret, p: Pending)
    requires h in s.handlers && s.handlers[h] == Viewing(id, p)
    requires t == Bind(s, h, id, p)
    requires HandlerOk(s, h, Viewing(id, p))
    ensures Grows(s, t) && Only(s, t, h)
  {
  }

  lemma BindMoved(s: State, t: State, h: nat, id: Secret, p: Pending)
    requires h in s.handlers && s.handlers[h] == Viewing(id, p)
    requires t == Bind(s, h, id, p)
    requires HandlerOk(s, h, Viewing(id, p))
    requires ReplaysOk(s.hist.replays, s.handlers)
    ensures Moved(s, t, h, t.handlers[h])
  {
  }

  lemma BindKeeps(s: State, t: State, h: nat, id: Secret, p: Pending)
    requires h in s.handlers && s.handlers[h] == Viewing(id, p)
    requires t == Bind(s, h, id, p)
    requires Inv(s)
    ensures Inv(t) && Grows(s, t)
  {
    assert HandlerOk(s, h, s.handlers[h]);
    hide PeopleOk, PendingsOk, CacheOk, OneLive, MarkersOk, ReplaysOk, KeysOk, HandlerOk, HandlersOk, Moved, Grows, Only;
    hide RequestsOk, DecisionsOk, CodesOk, FamiliesOk, RowsOk, MintedOk;
    BindWrites(s, t, h, id, p);
    BindGrows(s, t, h, id, p);
    BindMoved(s, t, h, id, p);
    FactsFrame(s, t);
    hide Facts, RequestOk, DecisionOk, CodeOk, FamilyOk, LineOk, AccessOk;
    FactsExtend(s, t);
    WriteKeeps(s, t, h);
  }

  // decideAuthorization, taking the request

  lemma ConsumeWrites(s: State, t: State, h: nat, id: Secret, principal: Principal, allow: bool, p: Pending)
    requires h in s.handlers && s.handlers[h] == Consuming(id, principal, allow, p)
    requires t == Consume(s, h, id, principal, allow, p)
    requires HandlerOk(s, h, Consuming(id, principal, allow, p))
    requires PendingsOk(s.pendings, s.hist.requests)
    requires RequestsOk(s, s)
    ensures PendingsOk(t.pendings, t.hist.requests) && DecisionOk(t, h)
  {
  }

  lemma ConsumeGrows(s: State, t: State, h: nat, id: Secret, principal: Principal, allow: bool, p: Pending)
    requires h in s.handlers && s.handlers[h] == Consuming(id, principal, allow, p)
    requires t == Consume(s, h, id, principal, allow, p)
    requires HandlerOk(s, h, Consuming(id, principal, allow, p))
    ensures Grows(s, t) && Only(s, t, h)
  {
  }

  lemma ConsumeMoved(s: State, t: State, h: nat, id: Secret, principal: Principal, allow: bool, p: Pending)
    requires h in s.handlers && s.handlers[h] == Consuming(id, principal, allow, p)
    requires t == Consume(s, h, id, principal, allow, p)
    requires HandlerOk(s, h, Consuming(id, principal, allow, p))
    requires ReplaysOk(s.hist.replays, s.handlers)
    ensures Moved(s, t, h, t.handlers[h])
  {
  }

  lemma ConsumeKeeps(s: State, t: State, h: nat, id: Secret, principal: Principal, allow: bool, p: Pending)
    requires h in s.handlers && s.handlers[h] == Consuming(id, principal, allow, p)
    requires t == Consume(s, h, id, principal, allow, p)
    requires Inv(s)
    ensures Inv(t) && Grows(s, t)
  {
    assert HandlerOk(s, h, s.handlers[h]);
    hide PeopleOk, PendingsOk, CacheOk, OneLive, MarkersOk, ReplaysOk, KeysOk, HandlerOk, HandlersOk, Moved, Grows, Only;
    hide RequestsOk, DecisionsOk, CodesOk, FamiliesOk, RowsOk, MintedOk;
    ConsumeWrites(s, t, h, id, principal, allow, p);
    ConsumeGrows(s, t, h, id, principal, allow, p);
    ConsumeMoved(s, t, h, id, principal, allow, p);
    FactsFrame(s, t);
    hide Facts, RequestOk, DecisionOk, CodeOk, FamilyOk, LineOk, AccessOk;
    FactsExtend(s, t);
    WriteKeeps(s, t, h);
  }

  // decideAuthorization, recording the person

  lemma RecordWrites(s: State, t: State, h: nat, principal: Principal, p: Pending)
    requires h in s.handlers && s.handlers[h] == Recording(principal, p)
    requires t == Record(s, h, principal, p)
    requires HandlerOk(s, h, Recording(principal, p))
    requires PeopleOk(s.people)
    ensures PeopleOk(t.people)
  {
    UpsertKeeps(s.people, principal.identity);
  }

  lemma RecordGrows(s: State, t: State, h: nat, principal: Principal, p: Pending)
    requires h in s.handlers && s.handlers[h] == Recording(principal, p)
    requires t == Record(s, h, principal, p)
    requires HandlerOk(s, h, Recording(principal, p))
    requires PeopleOk(s.people)
    ensures Grows(s, t) && Only(s, t, h)
  {
    UpsertKeeps(s.people, principal.identity);
    hide Upsert, UsersGrow;
  }

  lemma RecordMoved(s: State, t: State, h: nat, principal: Principal, p: Pending)
    requires h in s.handlers && s.handlers[h] == Recording(principal, p)
    requires t == Record(s, h, principal, p)
    requires HandlerOk(s, h, Recording(principal, p))
    requires PeopleOk(s.people)
    requires ReplaysOk(s.hist.replays, s.handlers)
    ensures Moved(s, t, h, t.handlers[h])
  {
    UpsertKeeps(s.people, principal.identity);
    hide Upsert, PeopleOk;
  }

  lemma RecordKeeps(s: State, t: State, h: nat, principal: Principal, p: Pending)
    requires h in s.handlers && s.handlers[h] == Recording(principal, p)
    requires t == Record(s, h, principal, p)
    requires Inv(s)
    ensures Inv(t) && Grows(s, t)
  {
    assert HandlerOk(s, h, s.handlers[h]);
    hide PeopleOk, PendingsOk, CacheOk, OneLive, MarkersOk, ReplaysOk, KeysOk, HandlerOk, HandlersOk, Moved, Grows, Only;
    hide RequestsOk, DecisionsOk, CodesOk, FamiliesOk, RowsOk, MintedOk;
    RecordWrites(s, t, h, principal, p);
    RecordGrows(s, t, h, principal, p);
    RecordMoved(s, t, h, principal, p);
    FactsFrame(s, t);
    hide Facts, RequestOk, DecisionOk, CodeOk, FamilyOk, LineOk, AccessOk;
    FactsExtend(s, t);
    WriteKeeps(s, t, h);
  }

  // decideAuthorization, storing the code

  lemma IssueCodeWrites(s: State, t: State, h: nat, principal: Principal, p: Pending, userID: nat, first: Secret)
    requires h in s.handlers && s.handlers[h] == Coding(principal, p, userID)
    requires first !in s.drawn
    requires t == IssueCode(s, h, principal, p, userID, first)
    requires HandlerOk(s, h, Coding(principal, p, userID))
    requires CodesOk(s, s) && DecisionsOk(s, s)
    requires CacheOk(s.codes, s.hist.codes, s.hist.consumed)
    ensures CacheOk(t.codes, t.hist.codes, t.hist.consumed) && CodeOk(t, Digest(first))
  {
  }

  lemma IssueCodeGrows(s: State, t: State, h: nat, principal: Principal, p: Pending, userID: nat, first: Secret)
    requires h in s.handlers && s.handlers[h] == Coding(principal, p, userID)
    requires first !in s.drawn
    requires t == IssueCode(s, h, principal, p, userID, first)
    requires HandlerOk(s, h, Coding(principal, p, userID))
    requires CodesOk(s, s)
    ensures Grows(s, t) && Only(s, t, h)
  {
  }

  lemma IssueCodeMoved(s: State, t: State, h: nat, principal: Principal, p: Pending, userID: nat, first: Secret)
    requires h in s.handlers && s.handlers[h] == Coding(principal, p, userID)
    requires first !in s.drawn
    requires t == IssueCode(s, h, principal, p, userID, first)
    requires HandlerOk(s, h, Coding(principal, p, userID))
    requires ReplaysOk(s.hist.replays, s.handlers)
    ensures Moved(s, t, h, t.handlers[h])
  {
  }

  lemma IssueCodeKeeps(s: State, t: State, h: nat, principal: Principal, p: Pending, userID: nat, first: Secret)
    requires h in s.handlers && s.handlers[h] == Coding(principal, p, userID)
    requires first !in s.drawn
    requires t == IssueCode(s, h, principal, p, userID, first)
    requires Inv(s)
    ensures Inv(t) && Grows(s, t)
  {
    assert HandlerOk(s, h, s.handlers[h]);
    hide PeopleOk, PendingsOk, CacheOk, OneLive, MarkersOk, ReplaysOk, KeysOk, HandlerOk, HandlersOk, Moved, Grows, Only;
    hide RequestsOk, DecisionsOk, CodesOk, FamiliesOk, RowsOk, MintedOk;
    IssueCodeWrites(s, t, h, principal, p, userID, first);
    IssueCodeGrows(s, t, h, principal, p, userID, first);
    IssueCodeMoved(s, t, h, principal, p, userID, first);
    FactsFrame(s, t);
    hide Facts, RequestOk, DecisionOk, CodeOk, FamilyOk, LineOk, AccessOk;
    FactsExtend(s, t);
    WriteKeeps(s, t, h);
  }

  // redeemCode, taking the code

  lemma TakeCodeWrites(s: State, t: State, h: nat, code: Secret, form: RedeemForm)
    requires h in s.handlers && s.handlers[h] == Taking(code, form)
    requires Digest(code) in s.codes
    requires t == TakeCode(s, h, code, form)
    requires HandlerOk(s, h, Taking(code, form))
    requires CacheOk(s.codes, s.hist.codes, s.hist.consumed)
    ensures CacheOk(t.codes, t.hist.codes, t.hist.consumed)
  {
  }

  lemma TakeCodeMarkers(s: State, t: State, h: nat, code: Secret, form: RedeemForm)
    requires h in s.handlers && s.handlers[h] == Taking(code, form)
    requires Digest(code) in s.codes
    requires t == TakeCode(s, h, code, form)
    requires HandlerOk(s, h, Taking(code, form))
    requires Markers(s)
    ensures Markers(t)
  {
  }

  lemma TakeCodeGrows(s: State, t: State, h: nat, code: Secret, form: RedeemForm)
    requires h in s.handlers && s.handlers[h] == Taking(code, form)
    requires Digest(code) in s.codes
    requires t == TakeCode(s, h, code, form)
    requires HandlerOk(s, h, Taking(code, form))
    requires CacheOk(s.codes, s.hist.codes, s.hist.consumed)
    ensures Grows(s, t) && Only(s, t, h)
  {
  }

  lemma TakeCodeHandler(s: State, t: State, h: nat, code: Secret, form: RedeemForm)
    requires h in s.handlers && s.handlers[h] == Taking(code, form)
    requires Digest(code) in s.codes
    requires t == TakeCode(s, h, code, form)
    requires HandlerOk(s, h, Taking(code, form))
    requires CacheOk(s.codes, s.hist.codes, s.hist.consumed)
    requires Markers(s)
    ensures HandlerOk(t, h, t.handlers[h])
  {
  }

  lemma TakeCodeMoved(s: State, t: State, h: nat, code: Secret, form: RedeemForm)
    requires h in s.handlers && s.handlers[h] == Taking(code, form)
    requires Digest(code) in s.codes
    requires t == TakeCode(s, h, code, form)
    requires HandlerOk(s, h, Taking(code, form))
    requires CacheOk(s.codes, s.hist.codes, s.hist.consumed)
    requires Markers(s)
    requires ReplaysOk(s.hist.replays, s.handlers)
    ensures Moved(s, t, h, t.handlers[h])
  {
    hide HandlerOk, CacheOk, MarkersOk, CheckCode;
    TakeCodeHandler(s, t, h, code, form);
  }

  lemma TakeCodeKeeps(s: State, t: State, h: nat, code: Secret, form: RedeemForm)
    requires h in s.handlers && s.handlers[h] == Taking(code, form)
    requires Digest(code) in s.codes
    requires t == TakeCode(s, h, code, form)
    requires Inv(s)
    ensures Inv(t) && Grows(s, t)
  {
    assert HandlerOk(s, h, s.handlers[h]);
    hide PeopleOk, PendingsOk, CacheOk, OneLive, MarkersOk, ReplaysOk, KeysOk, HandlerOk, HandlersOk, Moved, Grows, Only;
    hide RequestsOk, DecisionsOk, CodesOk, FamiliesOk, RowsOk, MintedOk;
    TakeCodeWrites(s, t, h, code, form);
    TakeCodeMarkers(s, t, h, code, form);
    TakeCodeGrows(s, t, h, code, form);
    TakeCodeMoved(s, t, h, code, form);
    FactsFrame(s, t);
    hide Facts, RequestOk, DecisionOk, CodeOk, FamilyOk, LineOk, AccessOk;
    FactsExtend(s, t);
    WriteKeeps(s, t, h);
  }

  // redeemCode, starting the family

  lemma StartFamilyLive(s: State, t: State, h: nat, code: Secret, form: RedeemForm, c: Code, family: Secret, refresh: Secret)
    requires h in s.handlers && s.handlers[h] == Starting(code, form, c)
    requires family !in s.drawn && refresh !in s.drawn && family != refresh
    requires t == StartFamily(s, h, code, form, c, family, refresh)
    requires HandlerOk(s, h, Starting(code, form, c))
    requires RowsOk(s, s) && FamiliesOk(s, s) && OneLive(s.tokens)
    ensures OneLive(t.tokens)
    ensures t.tokens.Keys == s.tokens.Keys + {Digest(refresh)}
  {
    assert Digest(refresh) !in s.tokens && (forall d | d in s.tokens :: s.tokens[d].family != family);
    hide FamiliesOk, RowsOk;
    InsertGrows(s.hist.families, s.tokens, Digest(refresh), family, c.userID, c.pending.clientID, JoinScopes(c.granted), s.now);
  }

  lemma StartFamilyMarkers(s: State, t: State, h: nat, code: Secret, form: RedeemForm, c: Code, family: Secret, refresh: Secret)
    requires h in s.handlers && s.handlers[h] == Starting(code, form, c)
    requires family !in s.drawn && refresh !in s.drawn && family != refresh
    requires t == StartFamily(s, h, code, form, c, family, refresh)
    requires HandlerOk(s, h, Starting(code, form, c))
    requires Markers(s) && FamiliesOk(s, s)
    ensures Markers(t)
  {
    assert family !in s.hist.families;
    hide FamiliesOk, MarkersOk;
    MarkersStart(s.redeemed, s.hist.marked, s.hist.consumed, s.hist.started, s.hist.families, s.hist.replays, Digest(code), family, form.verifier);
  }

  lemma StartFamilyWrites(s: State, t: State, h: nat, code: Secret, form: RedeemForm, c: Code, family: Secret, refresh: Secret)
    requires h in s.handlers && s.handlers[h] == Starting(code, form, c)
    requires family !in s.drawn && refresh !in s.drawn && family != refresh
    requires t == StartFamily(s, h, code, form, c, family, refresh)
    requires HandlerOk(s, h, Starting(code, form, c))
    requires CodesOk(s, s)
    ensures FamilyOk(t, family)
    ensures LineOk(t, t.tokens[Digest(refresh)])
  {
    JoinRoundTrip(c.granted);
  }

  lemma StartFamilyTokensGrow(s: State, t: State, h: nat, code: Secret, form: RedeemForm, c: Code, family: Secret, refresh: Secret)
    requires family !in s.drawn && refresh !in s.drawn
    requires t == StartFamily(s, h, code, form, c, family, refresh)
    requires FamiliesOk(s, s) && RowsOk(s, s)
    ensures TokensGrow(s.hist.families, s.tokens, t.tokens) && family !in s.hist.families
  {
    assert Digest(refresh) !in s.tokens && (forall d | d in s.tokens :: s.tokens[d].family != family);
    InsertGrows(s.hist.families, s.tokens, Digest(refresh), family, c.userID, c.pending.clientID, JoinScopes(c.granted), s.now);
    hide FamiliesOk, RowsOk;
  }

  lemma StartFamilyGrows(s: State, t: State, h: nat, code: Secret, form: RedeemForm, c: Code, family: Secret, refresh: Secret)
    requires h in s.handlers && s.handlers[h] == Starting(code, form, c)
    requires family !in s.drawn && refresh !in s.drawn && family != refresh
    requires t == StartFamily(s, h, code, form, c, family, refresh)
    requires HandlerOk(s, h, Starting(code, form, c))
    requires FamiliesOk(s, s) && RowsOk(s, s)
    ensures Grows(s, t) && Only(s, t, h)
  {
    hide FamiliesOk, RowsOk, TokensGrow, InsertRow, JoinScopes;
    StartFamilyTokensGrow(s, t, h, code, form, c, family, refresh);
  }

  lemma StartFamilyMoved(s: State, t: State, h: nat, code: Secret, form: RedeemForm, c: Code, family: Secret, refresh: Secret)
    requires h in s.handlers && s.handlers[h] == Starting(code, form, c)
    requires family !in s.drawn && refresh !in s.drawn && family != refresh
    requires t == StartFamily(s, h, code, form, c, family, refresh)
    requires HandlerOk(s, h, Starting(code, form, c))
    requires ReplaysOk(s.hist.replays, s.handlers)
    ensures Moved(s, t, h, t.handlers[h])
  {
  }

  lemma StartFamilyKeeps(s: State, t: State, h: nat, code: Secret, form: RedeemForm, c: Code, family: Secret, refresh: Secret)
    requires h in s.handlers && s.handlers[h] == Starting(code, form, c)
    requires family !in s.drawn && refresh !in s.drawn && family != refresh
    requires t == StartFamily(s, h, code, form, c, family, refresh)
    requires Inv(s)
    ensures Inv(t) && Grows(s, t)
  {
    assert HandlerOk(s, h, s.handlers[h]);
    hide PeopleOk, PendingsOk, CacheOk, OneLive, MarkersOk, ReplaysOk, KeysOk, HandlerOk, HandlersOk, Moved, Grows, Only;
    hide RequestsOk, DecisionsOk, CodesOk, FamiliesOk, RowsOk, MintedOk, InsertRow;
    StartFamilyLive(s, t, h, code, form, c, family, refresh);
    StartFamilyMarkers(s, t, h, code, form, c, family, refresh);
    StartFamilyWrites(s, t, h, code, form, c, family, refresh);
    StartFamilyGrows(s, t, h, code, form, c, family, refresh);
    StartFamilyMoved(s, t, h, code, form, c, family, refresh);
    FactsFrame(s, t);
    hide Facts, RequestOk, DecisionOk, CodeOk, FamilyOk, LineOk, AccessOk;
    FactsExtend(s, t);
    WriteKeeps(s, t, h);
  }

  // redeemCode, remembering the redemption and signing

  lemma MarkRedeemedWrites(s: State, t: State, h: nat, code: Secret, c: Code, family: Secret, refresh: Secret)
    requires h in s.handlers && s.handlers[h] == Marking(code, c, family, refresh)
    requires t == MarkRedeemed(s, h, code, c, family, refresh)
    requires HandlerOk(s, h, Marking(code, c, family, refresh))
    requires Markers(s)
    ensures Markers(t)
  {
    hide MarkersOk;
    MarkersMark(s.redeemed, s.hist.marked, s.hist.consumed, s.hist.started, s.hist.families, s.hist.replays, Digest(code), s.now);
  }

  lemma MarkRedeemedSigns(s: State, t: State, h: nat, code: Secret, c: Code, family: Secret, refresh: Secret)
    requires h in s.handlers && s.handlers[h] == Marking(code, c, family, refresh)
    requires t == MarkRedeemed(s, h, code, c, family, refresh)
    requires HandlerOk(s, h, Marking(code, c, family, refresh))
    ensures AccessOk(t, h)
  {
  }

  lemma MarkRedeemedGrows(s: State, t: State, h: nat, code: Secret, c: Code, family: Secret, refresh: Secret)
    requires h in s.handlers && s.handlers[h] == Marking(code, c, family, refresh)
    requires t == MarkRedeemed(s, h, code, c, family, refresh)
    requires HandlerOk(s, h, Marking(code, c, family, refresh))
    ensures Grows(s, t) && Only(s, t, h)
  {
  }

  lemma MarkRedeemedMoved(s: State, t: State, h: nat, code: Secret, c: Code, family: Secret, refresh: Secret)
    requires h in s.handlers && s.handlers[h] == Marking(code, c, family, refresh)
    requires t == MarkRedeemed(s, h, code, c, family, refresh)
    requires HandlerOk(s, h, Marking(code, c, family, refresh))
    requires Markers(s)
    requires ReplaysOk(s.hist.replays, s.handlers)
    ensures Moved(s, t, h, t.handlers[h])
  {
  }

  lemma MarkRedeemedKeeps(s: State, t: State, h: nat, code: Secret, c: Code, family: Secret, refresh: Secret)
    requires h in s.handlers && s.handlers[h] == Marking(code, c, family, refresh)
    requires t == MarkRedeemed(s, h, code, c, family, refresh)
    requires Inv(s)
    ensures Inv(t) && Grows(s, t)
  {
    assert HandlerOk(s, h, s.handlers[h]);
    hide PeopleOk, PendingsOk, CacheOk, OneLive, MarkersOk, ReplaysOk, KeysOk, HandlerOk, HandlersOk, Moved, Grows, Only;
    hide RequestsOk, DecisionsOk, CodesOk, FamiliesOk, RowsOk, MintedOk;
    MarkRedeemedWrites(s, t, h, code, c, family, refresh);
    MarkRedeemedSigns(s, t, h, code, c, family, refresh);
    MarkRedeemedGrows(s, t, h, code, c, family, refresh);
    MarkRedeemedMoved(s, t, h, code, c, family, refresh);
    FactsFrame(s, t);
    hide Facts, RequestOk, DecisionOk, CodeOk, FamilyOk, LineOk, AccessOk;
    FactsExtend(s, t);
    WriteKeeps(s, t, h);
  }

  // refresh, rotating a live token and signing

  lemma RotateLive(s: State, t: State, h: nat, token: Secret, current: Row, user: User, scopes: seq<string>, next: Secret)
    requires h in s.handlers && s.handlers[h] == Rotating(token, current, user, scopes)
    requires next !in s.drawn && Digest(token) in s.tokens && s.tokens[Digest(token)].Live()
    requires t == Rotate(s, h, token, current, user, scopes, next)
    requires HandlerOk(s, h, Rotating(token, current, user, scopes))
    requires RowsOk(s, s) && OneLive(s.tokens)
    ensures OneLive(t.tokens)
    ensures t.tokens.Keys == s.tokens.Keys + {Digest(next)} && t.tokens[Digest(token)].lastUsedAt.Some?
    ensures TokensGrow(s.hist.families, s.tokens, t.tokens) && Digest(token) !in s.hist.rotations
  {
    assert Digest(next) !in s.tokens && Digest(token) !in s.hist.rotations;
    hide RowsOk;
    RotateGrowsTokens(s.hist.families, s.tokens, Digest(token), Digest(next), JoinScopes(scopes), s.now);
  }

  lemma RotateFacts(s: State, t: State, h: nat, token: Secret, current: Row, user: User, scopes: seq<string>, next: Secret)
    requires h in s.handlers && s.handlers[h] == Rotating(token, current, user, scopes)
    requires next !in s.drawn && Digest(token) in s.tokens && s.tokens[Digest(token)].Live()
    requires t == Rotate(s, h, token, current, user, scopes, next)
    requires HandlerOk(s, h, Rotating(token, current, user, scopes))
    requires Facts(s, t) && LineOk(t, t.tokens[Digest(next)]) && AccessOk(t, h)
    requires t.tokens.Keys == s.tokens.Keys + {Digest(next)} && t.tokens[Digest(token)].lastUsedAt.Some?
    ensures Facts(t, t)
  {
    hide HandlerOk, RotateRow, Facts, RequestOk, DecisionOk, CodeOk, FamilyOk, LineOk, AccessOk;
    FactsExtend(s, t);
  }

  lemma RotateLine(s: State, t: State, h: nat, token: Secret, current: Row, user: User, scopes: seq<string>, next: Secret)
    requires h in s.handlers && s.handlers[h] == Rotating(token, current, user, scopes)
    requires next !in s.drawn && Digest(token) in s.tokens && s.tokens[Digest(token)].Live()
    requires t == Rotate(s, h, token, current, user, scopes, next)
    requires HandlerOk(s, h, Rotating(token, current, user, scopes))
    requires RowsOk(s, s)
    ensures LineOk(t, t.tokens[Digest(next)])
  {
    JoinRoundTrip(scopes);
    assert LineOk(s, s.tokens[Digest(token)]);
    hide RowsOk;
  }

  lemma RotateSigns(s: State, t: State, h: nat, token: Secret, current: Row, user: User, scopes: seq<string>, next: Secret)
    requires h in s.handlers && s.handlers[h] == Rotating(token, current, user, scopes)
    requires next !in s.drawn && Digest(token) in s.tokens && s.tokens[Digest(token)].Live()
    requires t == Rotate(s, h, token, current, user, scopes, next)
    requires HandlerOk(s, h, Rotating(token, current, user, scopes))
    requires RowsOk(s, s) && CodesOk(s, s)
    ensures AccessOk(t, h)
  {
    assert LineOk(s, s.tokens[Digest(token)]);
    hide RowsOk;
  }

  lemma RotateGrows(s: State, t: State, h: nat, token: Secret, current: Row, user: User, scopes: seq<string>, next: Secret)
    requires h in s.handlers && s.handlers[h] == Rotating(token, current, user, scopes)
    requires next !in s.drawn && Digest(token) in s.tokens && s.tokens[Digest(token)].Live()
    requires t == Rotate(s, h, token, current, user, scopes, next)
    requires HandlerOk(s, h, Rotating(token, current, user, scopes))
    requires TokensGrow(s.hist.families, s.tokens, t.tokens)
    requires Digest(token) !in s.hist.rotations
    ensures Grows(s, t) && Only(s, t, h)
  {
    hide TokensGrow, RotateRow;
  }

  lemma RotateMoved(s: State, t: State, h: nat, token: Secret, current: Row, user: User, scopes: seq<string>, next: Secret)
    requires h in s.handlers && s.handlers[h] == Rotating(token, current, user, scopes)
    requires next !in s.drawn && Digest(token) in s.tokens && s.tokens[Digest(token)].Live()
    requires t == Rotate(s, h, token, current, user, scopes, next)
    requires HandlerOk(s, h, Rotating(token, current, user, scopes))
    requires ReplaysOk(s.hist.replays, s.handlers)
    ensures Moved(s, t, h, t.handlers[h])
  {
    hide RotateRow;
  }

  lemma RotateKeeps(s: State, t: State, h: nat, token: Secret, current: Row, user: User, scopes: seq<string>, next: Secret)
    requires h in s.handlers && s.handlers[h] == Rotating(token, current, user, scopes)
    requires next !in s.drawn && Digest(token) in s.tokens && s.tokens[Digest(token)].Live()
    requires t == Rotate(s, h, token, current, user, scopes, next)
    requires Inv(s)
    ensures Inv(t) && Grows(s, t)
  {
    assert HandlerOk(s, h, s.handlers[h]);
    hide PeopleOk, PendingsOk, CacheOk, OneLive, MarkersOk, ReplaysOk, KeysOk, HandlerOk, HandlersOk, Moved, Grows, Only;
    hide RequestsOk, DecisionsOk, CodesOk, FamiliesOk, RowsOk, MintedOk, RotateRow, TokensGrow;
    RotateLive(s, t, h, token, current, user, scopes, next);
    RotateLine(s, t, h, token, current, user, scopes, next);
    RotateSigns(s, t, h, token, current, user, scopes, next);
    RotateGrows(s, t, h, token, current, user, scopes, next);
    RotateMoved(s, t, h, token, current, user, scopes, next);
    FactsFrame(s, t);
    RotateFacts(s, t, h, token, current, user, scopes, next);
    hide Facts, LineOk, AccessOk;
    WriteKeeps(s, t, h);
  }

  // revokeFamily, and the answer after it

  lemma FinishRevokingWrites(s: State, t: State, h: nat, family: Secret, next: Outcome)
    requires h in s.handlers && s.handlers[h] == Revoking(family, next)
    requires t == FinishRevoking(s, h, family, next)
    requires HandlerOk(s, h, Revoking(family, next))
    requires OneLive(s.tokens)
    ensures OneLive(t.tokens)
  {
    RevokeGrows(s.hist.families, s.tokens, family, s.now);
  }

  lemma FinishRevokingGrows(s: State, t: State, h: nat, family: Secret, next: Outcome)
    requires h in s.handlers && s.handlers[h] == Revoking(family, next)
    requires t == FinishRevoking(s, h, family, next)
    requires HandlerOk(s, h, Revoking(family, next))
    ensures Grows(s, t) && Only(s, t, h)
  {
    RevokeGrows(s.hist.families, s.tokens, family, s.now);
    hide TokensGrow;
  }

  lemma FinishRevokingMoved(s: State, t: State, h: nat, family: Secret, next: Outcome)
    requires h in s.handlers && s.handlers[h] == Revoking(family, next)
    requires t == FinishRevoking(s, h, family, next)
    requires HandlerOk(s, h, Revoking(family, next))
    requires ReplaysOk(s.hist.replays, s.handlers)
    ensures Moved(s, t, h, t.handlers[h])
  {
    RevokeGrows(s.hist.families, s.tokens, family, s.now);
    hide TokensGrow, OneLive;
  }

  lemma FinishRevokingKeeps(s: State, t: State, h: nat, family: Secret, next: Outcome)
    requires h in s.handlers && s.handlers[h] == Revoking(family, next)
    requires t == FinishRevoking(s, h, family, next)
    requires Inv(s)
    ensures Inv(t) && Grows(s, t)
  {
    assert HandlerOk(s, h, s.handlers[h]);
    hide PeopleOk, PendingsOk, CacheOk, OneLive, MarkersOk, ReplaysOk, KeysOk, HandlerOk, HandlersOk, Moved, Grows, Only;
    hide RequestsOk, DecisionsOk, CodesOk, FamiliesOk, RowsOk, MintedOk;
    FinishRevokingWrites(s, t, h, family, next);
    FinishRevokingGrows(s, t, h, family, next);
    FinishRevokingMoved(s, t, h, family, next);
    FactsFrame(s, t);
    hide Facts, RequestOk, DecisionOk, CodeOk, FamilyOk, LineOk, AccessOk;
    FactsExtend(s, t);
    WriteKeeps(s, t, h);
  }
}
