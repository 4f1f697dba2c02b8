/**
 The authorization server as a step machine: one atomic cache operation or SQL
 statement per step, any number of handlers in flight, in any order
 (internal/oauth/authorize.go, consent.go, token.go).

 `Do` is total: an action that is not possible changes nothing, so the runs of
 the system are exactly the finite sequences of actions.
*/
module OAuthMachine {
  import opened Wrappers
  import opened Scopes
  import opened OAuthState

  datatype Action =
    | Tick(seconds: nat)
    | Reconfigure(scopeMap: set<string>)
    | Authorize(id: Secret, ask: AuthRequest)
    | Begin(h: nat, call: Call)
    | Advance(h: nat, first: Secret, second: Secret)

  function Do(s: State, a: Action): State {
    match a
    case Tick(seconds) => s.(now := s.now + seconds)
    case Reconfigure(scopeMap) => s.(grantable := scopeMap + {PUBLIC_READ})
    case Authorize(id, ask) => if id in s.drawn then s else DoAuthorize(s, id, ask)
    case Begin(h, call) => if h in s.handlers then s else DoBegin(s, h, call)
    case Advance(h, first, second) =>
      if h !in s.handlers || first in s.drawn || second in s.drawn || first == second then s
      else DoAdvance(s, h, first, second)
  }

  function Run(s: State, actions: seq<Action>): State
    decreases |actions|
  {
    if actions == [] then s else Run(Do(s, actions[0]), actions[1..])
  }

  function At(s: State, h: nat, pc: Handler): State {
    s.(handlers := s.handlers[h := pc])
  }

  // ---- authorize ----

  /** The checks between a trusted redirect_uri and the pending write. */
  function AuthorizeScopes(s: State, ask: AuthRequest): Option<seq<string>> {
    if ask.challengeMethod != "S256" || !ValidPKCE(ask.challenge) || ask.resource != s.env.audience then None
    else match Requested(ask.scope, s.grantable)
      case Err(_) => None
      case Ok(scopes) => if ask.state == "" then None else Some(scopes)
  }

  function DoAuthorize(s: State, id: Secret, ask: AuthRequest): State {
    match AuthorizeScopes(s, ask)
    case None => s
    case Some(scopes) =>
      var p := Pending(ask.clientID, ask.redirectURI, ask.challenge, scopes, s.now + PENDING_TTL, "");
      s.(drawn := s.drawn + {id},
         pendings := s.pendings[id := NewEntry(p, s.now, PENDING_TTL)],
         hist := s.hist.(requests := s.hist.requests[id := Request(ask.clientID, ask.challenge, scopes, p.expiresAt)]))
  }

  // ---- a handler's first operation ----

  function DoBegin(s: State, h: nat, call: Call): (t: State)
    ensures h in t.handlers && t.handlers == s.handlers[h := t.handlers[h]]
  {
    match call
    case View(id, principal) => At(s, h, ViewPc(s, id, principal))
    case Decide(id, principal, allow) => At(s, h, DecidePc(s, id, principal, allow))
    case Redeem(form) =>
      if form.code.None? then At(s, h, Done(Rejected(MissingParameter)))
      else if Hit(s.redeemed, Digest(form.code.value), s.now) then Replay(s, h, Digest(form.code.value))
      else At(s, h, Taking(form.code.value, form))
    case Refresh(ask) => At(s, h, RefreshPc(s, ask))
    case Revoke(token) => At(s, h, RevokePc(s, token))
  }

  /** getAuthorization after its read. */
  function ViewPc(s: State, id: Secret, principal: Principal): Handler {
    match LoadPending(s, id)
    case None => Done(NotFound)
    case Some(p) =>
      if p.session != "" && p.session != principal.session then Done(NotFound)
      else if p.session != "" then Done(Viewed)
      else Viewing(id, p.(session := principal.session))
  }

  /** decideAuthorization after its read. */
  function DecidePc(s: State, id: Secret, principal: Principal, allow: bool): Handler {
    match LoadPending(s, id)
    case None => Done(NotFound)
    case Some(p) =>
      if p.session == "" || p.session != principal.session then Done(NotFound)
      else Consuming(id, principal, allow, p)
  }

  /** redeemCode when the code's redeemed marker is there to take. */
  function Replay(s: State, h: nat, k: Digest): (t: State)
    requires k in s.redeemed
  {
    var family := s.redeemed[k].value;
    At(s, h, Revoking(family, Rejected(ReplayedCode(family))))
      .(redeemed := s.redeemed - {k},
        hist := s.hist.(replays := s.hist.replays[family := h]))
  }

  /** refresh after it read the token's row. */
  function RefreshPc(s: State, ask: RefreshForm): Handler {
    match ask.token
    case None => Done(Rejected(MissingParameter))
    case Some(token) =>
      if Digest(token) in s.tokens then Resolving(token, ask, s.tokens[Digest(token)])
      else Done(Rejected(UnknownToken))
  }

  /** revoke after it read the token's row. */
  function RevokePc(s: State, token: Option<Secret>): Handler {
    match token
    case None => Done(Rejected(MissingParameter))
    case Some(raw) =>
      if Digest(raw) in s.tokens
      then Revoking(s.tokens[Digest(raw)].family, RevokedFamily(s.tokens[Digest(raw)].family))
      else Done(NothingToRevoke)
  }

  // ---- every later operation ----

  function DoAdvance(s: State, h: nat, first: Secret, second: Secret): (t: State)
    requires h in s.handlers
    ensures h in t.handlers && t.handlers == s.handlers[h := t.handlers[h]]
  {
    match s.handlers[h]
    case Viewing(id, p) => Bind(s, h, id, p)
    case Consuming(id, principal, allow, p) =>
      if Hit(s.pendings, id, s.now) then Consume(s, h, id, principal, allow, p) else At(s, h, Done(NotFound))
    case Recording(principal, p) => Record(s, h, principal, p)
    case Coding(principal, p, userID) => IssueCode(s, h, principal, p, userID, first)
    case Taking(code, form) =>
      if Hit(s.codes, Digest(code), s.now) then TakeCode(s, h, code, form) else At(s, h, Done(Rejected(UnknownCode)))
    case Starting(code, form, c) => StartFamily(s, h, code, form, c, first, second)
    case Marking(code, c, family, refresh) => MarkRedeemed(s, h, code, c, family, refresh)
    case Resolving(token, ask, current) => At(s, h, ResolvePc(s, token, ask, current))
    case Rotating(token, current, user, scopes) =>
      if Digest(token) in s.tokens && s.tokens[Digest(token)].Live()
      then Rotate(s, h, token, current, user, scopes, first)
      else At(s, h, Revoking(current.family, Rejected(ReusedToken(current.family))))
    case Revoking(family, next) => FinishRevoking(s, h, family, next)
    case Done(_) => s
  }

  /** getAuthorization's write. A deadline already past makes the ttl negative. */
  function Bind(s: State, h: nat, id: Secret, p: Pending): (t: State)
  {
    At(s, h, Done(Viewed))
      .(pendings := s.pendings[id := NewEntry(p, s.now, p.expiresAt - s.now)],
        hist := s.hist.(bound := FirstBound(s.hist.bound, id, p.session)))
  }

  function FirstBound(bound: map<Secret, string>, id: Secret, session: string): map<Secret, string> {
    if id in bound || session == "" then bound else bound[id := session]
  }

  /** decideAuthorization's take, when the request is still there. */
  function Consume(s: State, h: nat, id: Secret, principal: Principal, allow: bool, p: Pending): (t: State)
  {
    At(s, h, if allow then Recording(principal, p) else Done(Denied))
      .(pendings := s.pendings - {id},
        hist := s.hist.(decisions := s.hist.decisions[h := Decision(id, principal, allow, p, s.now)]))
  }

  function Record(s: State, h: nat, principal: Principal, p: Pending): (t: State)
  {
    At(s, h, Coding(principal, p, UpsertedID(s.people, principal.identity)))
      .(people := Upsert(s.people, principal.identity))
  }

  function IssueCode(s: State, h: nat, principal: Principal, p: Pending, userID: nat, first: Secret): (t: State)
  {
    var c := Code(p, userID, principal.identity, Granted(p.scopes, principal.scopes));
    var k := Digest(first);
    At(s, h, Done(Redirected(first)))
      .(drawn := s.drawn + {first},
        codes := s.codes[k := NewEntry(c, s.now, CODE_TTL)],
        hist := s.hist.(issued := s.hist.issued[h := k], codes := s.hist.codes[k := CodeOrigin(h, c)]))
  }

  /** redeemCode's take of the code, with the checks that follow it. */
  function TakeCode(s: State, h: nat, code: Secret, form: RedeemForm): (t: State)
    requires Digest(code) in s.codes
  {
    var k := Digest(code);
    var c := s.codes[k].value;
    At(s, h, match CheckCode(s.env, form, c.pending)
             case Some(e) => Done(Rejected(e))
             case None => Starting(code, form, c))
      .(codes := s.codes - {k},
        hist := s.hist.(consumed := s.hist.consumed[k := h]))
  }

  function StartFamily(s: State, h: nat, code: Secret, form: RedeemForm, c: Code, family: Secret, refresh: Secret): (t: State)
  {
    At(s, h, Marking(code, c, family, refresh))
      .(drawn := s.drawn + {family, refresh},
        tokens := InsertRow(
          s.tokens, Digest(refresh), family, c.userID, c.pending.clientID, JoinScopes(c.granted), s.now),
        hist := s.hist.(started := s.hist.started[Digest(code) := family],
                        families := s.hist.families[family := FamilyOrigin(Digest(code), form.verifier)]))
  }

  function MarkRedeemed(s: State, h: nat, code: Secret, c: Code, family: Secret, refresh: Secret): (t: State)
  {
    var k := Digest(code);
    var access := Access(h, k, family, c.identity.person, c.pending.clientID, c.granted, false);
    At(s, h, Done(Issued(access, refresh, JoinScopes(c.granted))))
      .(redeemed := s.redeemed[k := NewEntry(family, s.now, REDEEMED_TTL)],
        hist := s.hist.(marked := s.hist.marked[k := s.now], minted := s.hist.minted[h := access]))
  }

  /** The user read, with the checks that follow it. */
  function ResolvePc(s: State, token: Secret, ask: RefreshForm, current: Row): Handler {
    if current.userID !in s.people.users then Done(Rejected(NoSuchUser))
    else match Refreshable(s, current, ask.clientID)
      case Some(ReusedToken(f)) => Revoking(f, Rejected(ReusedToken(f)))
      case Some(DisusedToken(f)) => Revoking(f, Rejected(DisusedToken(f)))
      case Some(e) => Done(Rejected(e))
      case None =>
        match Refreshed(current.scope, ask.scope, s.grantable)
        case None => Done(Rejected(ScopeNotGranted))
        case Some(scopes) => Rotating(token, current, s.people.users[current.userID], scopes)
  }

  /** The rotation of a live token, and the access token signed for it. */
  function Rotate(s: State, h: nat, token: Secret, current: Row, user: User, scopes: seq<string>, next: Secret): (t: State)
    requires Digest(token) in s.tokens
  {
    var access := Access(h, Digest(token), current.family, user.person, current.clientID, scopes, true);
    At(s, h, Done(Issued(access, next, JoinScopes(scopes))))
      .(drawn := s.drawn + {next},
        tokens := RotateRow(s.tokens, Digest(token), Digest(next), JoinScopes(scopes), s.now),
        hist := s.hist.(rotations := s.hist.rotations[Digest(token) := h], minted := s.hist.minted[h := access]))
  }

  /** revokeFamily, and the answer that follows it. */
  function FinishRevoking(s: State, h: nat, family: Secret, next: Outcome): (t: State)
  {
    At(s, h, Done(next)).(tokens := RevokeRows(s.tokens, family, s.now))
  }
}
