/**
 The authorization server's shared state and its in-flight handlers
 (internal/oauth over internal/store/oauth.sql.go and users.sql.go).

 Replicas share a cache and two tables and nothing else. `State` holds those,
 one record per running request with what it has read so far, and a history
 of what happened, which no step reads.
*/
module OAuthState {
  import opened Wrappers
  import opened Scopes

  // ---- values ----

  /** randomSecret: a request id, a code, a refresh token, a family id. */
  type Secret = nat

  /** hashToken: a free constructor, so equal digests have equal secrets. */
  datatype Digest = Digest(raw: Secret)

  datatype Person = Person(provider: string, subject: string)

  datatype Identity = Identity(person: Person, email: string, login: string)

  /** What the consent endpoints read of the site session. */
  datatype Principal = Principal(session: string, identity: Identity, scopes: seq<string>)

  datatype Pending = Pending(
    clientID: string, redirectURI: string, challenge: string,
    scopes: seq<string>, expiresAt: nat, session: string)

  datatype Code = Code(pending: Pending, userID: nat, identity: Identity, granted: seq<string>)

  /** A row of oauth_refresh_tokens, but for its hash, which keys it. */
  datatype Row = Row(
    family: Secret, userID: nat, clientID: string, scope: string,
    issuedAt: nat, lastUsedAt: Option<nat>, revokedAt: Option<nat>)
  {
    /** What RotateRefreshToken's WHERE clause asks of the row. */
    predicate Live() {
      lastUsedAt.None? && revokedAt.None?
    }
  }

  datatype User = User(person: Person, email: string, login: string)

  /**
   An access token: its claims, and who signed it for what. `credential` is the
   code or refresh token presented; `refreshed` says which of the two it was.
  */
  datatype Access = Access(
    handler: nat, credential: Digest, family: Secret, person: Person, clientID: string,
    scopes: seq<string>, refreshed: bool)

  /** The users table: its unique index on (provider, subject), its rows, its sequence. */
  datatype People = People(ids: map<Person, nat>, users: map<nat, User>, next: nat)

  /** UpsertUser's statement. */
  function Upsert(people: People, who: Identity): People {
    if who.person in people.ids
    then people.(users := people.users[people.ids[who.person] := User(who.person, who.email, who.login)])
    else People(
      people.ids[who.person := people.next],
      people.users[people.next := User(who.person, who.email, who.login)],
      people.next + 1)
  }

  /** The id UpsertUser returns. */
  function UpsertedID(people: People, who: Identity): nat {
    if who.person in people.ids then people.ids[who.person] else people.next
  }

  // ---- the cache ----

  /** A cache entry; `expires` is None for one set with no positive ttl. */
  datatype Entry<+V> = Entry(value: V, expires: Option<nat>) {
    /** Redis and MemoryCache agree: an entry is gone after its deadline. */
    predicate Fresh(now: nat) {
      expires.None? || now <= expires.value
    }
  }

  function NewEntry<V>(v: V, now: nat, ttl: int): Entry<V> {
    Entry(v, if ttl > 0 then Some(now + ttl) else None)
  }

  predicate Hit<K, V>(m: map<K, Entry<V>>, k: K, now: nat) {
    k in m && m[k].Fresh(now)
  }

  const PENDING_TTL: nat := 600
  const CODE_TTL: nat := 60
  const REDEEMED_TTL: nat := 600

  // ---- requests and their answers ----

  datatype AuthRequest = AuthRequest(
    clientID: string, redirectURI: string, challenge: string, challengeMethod: string,
    resource: string, scope: string, state: string)

  datatype RedeemForm = RedeemForm(
    code: Option<Secret>, verifier: string, clientID: string, redirectURI: string, resource: string)

  datatype RefreshForm = RefreshForm(token: Option<Secret>, clientID: string, scope: string)

  datatype TokenError =
    | MissingParameter
    | ReplayedCode(family: Secret)
    | UnknownCode
    | BadVerifier
    | WrongClient
    | WrongRedirect
    | WrongResource
    | UnknownToken
    | NoSuchUser
    | RevokedToken
    | ReusedToken(family: Secret)
    | DisusedToken(family: Secret)
    | ScopeNotGranted

  datatype Outcome =
    | Viewed
    | NotFound
    | Denied
    | Redirected(code: Secret)
    | Issued(access: Access, refresh: Secret, scope: string)
    | Rejected(error: TokenError)
    | RevokedFamily(family: Secret)
    | NothingToRevoke
  {
    /** The family this answer says is revoked. */
    function Ended(): Option<Secret> {
      match this
      case Rejected(ReplayedCode(f)) => Some(f)
      case Rejected(ReusedToken(f)) => Some(f)
      case Rejected(DisusedToken(f)) => Some(f)
      case RevokedFamily(f) => Some(f)
      case _ => None
    }
  }

  datatype Call =
    | View(id: Secret, principal: Principal)
    | Decide(id: Secret, principal: Principal, allow: bool)
    | Redeem(form: RedeemForm)
    | Refresh(refresh: RefreshForm)
    | Revoke(token: Option<Secret>)

  /** A handler between two of its operations, with its own snapshots. */
  datatype Handler =
    | Viewing(id: Secret, p: Pending)
    | Consuming(id: Secret, principal: Principal, allow: bool, p: Pending)
    | Recording(principal: Principal, p: Pending)
    | Coding(principal: Principal, p: Pending, userID: nat)
    | Taking(code: Secret, form: RedeemForm)
    | Starting(code: Secret, form: RedeemForm, c: Code)
    | Marking(code: Secret, c: Code, family: Secret, refresh: Secret)
    | Resolving(token: Secret, ask: RefreshForm, current: Row)
    | Rotating(token: Secret, current: Row, user: User, scopes: seq<string>)
    | Revoking(family: Secret, next: Outcome)
    | Done(outcome: Outcome)

  // ---- the whole state ----

  datatype Request = Request(clientID: string, challenge: string, scopes: seq<string>, deadline: nat)

  datatype Decision = Decision(id: Secret, principal: Principal, allow: bool, p: Pending, at: nat)

  datatype CodeOrigin = CodeOrigin(decider: nat, c: Code)

  datatype FamilyOrigin = FamilyOrigin(code: Digest, verifier: string)

  /** What happened; no step reads it. */
  datatype History = History(
    requests: map<Secret, Request>,      // what authorize stored, by request id
    bound: map<Secret, string>,          // the session each request was first bound to
    decisions: map<nat, Decision>,       // the request each deciding handler consumed
    issued: map<nat, Digest>,            // the code each allowing handler issued
    codes: map<Digest, CodeOrigin>,      // each code, with the handler that issued it
    consumed: map<Digest, nat>,          // the handler that took each code
    started: map<Digest, Secret>,        // the family each code started
    families: map<Secret, FamilyOrigin>, // the code each family was started from
    marked: map<Digest, nat>,            // when each code's redeemed marker was written
    replays: map<Secret, nat>,           // the handler that took a family's redeemed marker
    rotations: map<Digest, nat>,         // the handler that rotated each token
    minted: map<nat, Access>)            // the access token each handler signed

  datatype Env = Env(audience: string, s256: string -> string, refreshTTL: nat)

  datatype State = State(
    env: Env,
    now: nat,
    grantable: set<string>,
    drawn: set<Secret>,
    pendings: map<Secret, Entry<Pending>>,
    codes: map<Digest, Entry<Code>>,
    redeemed: map<Digest, Entry<Secret>>,
    people: People,
    tokens: map<Digest, Row>,
    handlers: map<nat, Handler>,
    hist: History)

  const NO_HISTORY: History :=
    History(map[], map[], map[], map[], map[], map[], map[], map[], map[], map[], map[], map[])

  function Initial(env: Env): State {
    State(env, 0, {PUBLIC_READ}, {}, map[], map[], map[], People(map[], map[], 1), map[], map[], NO_HISTORY)
  }

  /** Some number is above any finite set of secrets or of handlers. */
  ghost function Above(xs: set<nat>): (n: nat)
    ensures forall d | d in xs :: d < n
  {
    if xs == {} then 0
    else
      var x := Pick(xs);
      var n := Above(xs - {x});
      assert forall d | d in xs :: d == x || d in xs - {x};
      n + x + 1
  }

  ghost function Pick(xs: set<nat>): (x: nat)
    requires xs != {}
    ensures x in xs
  {
    var x :| x in xs; x
  }

  // ---- pure decisions ----

  /** RFC 7636's grammar for a verifier or a challenge: 43 to 128 unreserved characters. */
  predicate ValidPKCE(s: string) {
    43 <= |s| <= 128 && forall i | 0 <= i < |s| :: Unreserved(s[i])
  }

  predicate Unreserved(c: char) {
    'A' <= c <= 'Z' || 'a' <= c <= 'z' || '0' <= c <= '9' || c in "-._~"
  }

  /** The verifier is one RFC 7636 allows, and the request's challenge was made of it. */
  predicate Proves(env: Env, form: RedeemForm, p: Pending) {
    ValidPKCE(form.verifier) && env.s256(form.verifier) == p.challenge
  }

  /** checkCodeRequest: accepts exactly the form of the request, and names the first value that differs. */
  function CheckCode(env: Env, form: RedeemForm, p: Pending): (r: Option<TokenError>)
    ensures r.None? <==>
      Proves(env, form, p) && form.clientID == p.clientID && form.redirectURI == p.redirectURI && form.resource == env.audience
    ensures r == Some(BadVerifier) <==> !Proves(env, form, p)
    ensures r == Some(WrongClient) <==> Proves(env, form, p) && form.clientID != p.clientID
    ensures r == Some(WrongRedirect) <==> Proves(env, form, p) && form.clientID == p.clientID && form.redirectURI != p.redirectURI
    ensures r.Some? ==> r.value in {BadVerifier, WrongClient, WrongRedirect, WrongResource}
  {
    if !ValidPKCE(form.verifier) || env.s256(form.verifier) != p.challenge then Some(BadVerifier)
    else if form.clientID != p.clientID then Some(WrongClient)
    else if form.redirectURI != p.redirectURI then Some(WrongRedirect)
    else if form.resource != env.audience then Some(WrongResource)
    else None
  }

  /** refreshable: None when the token may be rotated. */
  function Refreshable(s: State, current: Row, clientID: string): Option<TokenError> {
    if current.revokedAt.Some? then Some(RevokedToken)
    else if current.lastUsedAt.Some? then Some(ReusedToken(current.family))
    else if s.now > current.issuedAt + s.env.refreshTTL then Some(DisusedToken(current.family))
    else if clientID != "" && clientID != current.clientID then Some(WrongClient)
    else None
  }

  /** loadPending. */
  function LoadPending(s: State, id: Secret): (r: Option<Pending>)
    ensures r.Some? ==> id in s.pendings && s.pendings[id].value == r.value && s.now < r.value.expiresAt
  {
    if Hit(s.pendings, id, s.now) && s.now < s.pendings[id].value.expiresAt
    then Some(s.pendings[id].value)
    else None
  }

  // ---- the table statements ----

  /** RotateRefreshToken's statement, when the row `used` is live. */
  function RotateRow(tokens: map<Digest, Row>, used: Digest, next: Digest, scope: string, now: nat): map<Digest, Row>
    requires used in tokens
  {
    var row := tokens[used];
    InsertRow(tokens[used := row.(lastUsedAt := Some(now))], next, row.family, row.userID, row.clientID, scope, now)
  }

  /** InsertRefreshToken's statement. */
  function InsertRow(
    tokens: map<Digest, Row>, hash: Digest, family: Secret, userID: nat, clientID: string, scope: string, now: nat)
    : map<Digest, Row>
  {
    tokens[hash := Row(family, userID, clientID, scope, now, None, None)]
  }

  /** RevokeRefreshFamily's statement. */
  function RevokeRows(tokens: map<Digest, Row>, family: Secret, now: nat): (r: map<Digest, Row>)
    ensures r.Keys == tokens.Keys
    ensures forall d | d in tokens :: r[d] == RevokedRow(tokens[d], family, now)
  {
    map d | d in tokens :: RevokedRow(tokens[d], family, now)
  }

  function RevokedRow(row: Row, family: Secret, now: nat): Row {
    if row.family == family && row.revokedAt.None? then row.(revokedAt := Some(now)) else row
  }

  /** Every row of the family is revoked. */
  predicate Dead(tokens: map<Digest, Row>, family: Secret) {
    forall d | d in tokens && tokens[d].family == family :: tokens[d].revokedAt.Some?
  }
}
