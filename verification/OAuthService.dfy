/**
 What a request that is in order gets (internal/oauth/authorize.go, consent.go,
 token.go): each handler with nothing running beside it, and the whole flow from
 an authorization to a refresh.
*/
module OAuthService {
  import opened Wrappers
  import opened Scopes
  import opened OAuthState
  import opened OAuthMachine
  import opened OAuthServer

  // ---- authorize ----

  /** Every check on an authorization request passes. */
  predicate Proper(s: State, ask: AuthRequest) {
    && ask.challengeMethod == "S256" && ValidPKCE(ask.challenge)
    && ask.resource == s.env.audience && ask.state != ""
    && forall sc | sc in Fields(ask.scope) :: sc in s.grantable
  }

  /** The scopes of a request: those it names, once each in its order, or public:read. */
  ghost predicate AsksFor(scopes: seq<string>, raw: string) {
    if Fields(raw) == [] then scopes == [PUBLIC_READ] else ListsOnce(scopes, Fields(raw))
  }

  /**
   A proper request is stored for ten minutes as it was asked, bound to nobody.
   Any other changes nothing.
  */
  lemma AuthorizeStoresWhatWasAsked(s: State, id: Secret, ask: AuthRequest)
    ensures var t := DoAuthorize(s, id, ask);
      if Proper(s, ask) then
        && id in t.pendings
        && (var p := t.pendings[id].value;
            && AsksFor(p.scopes, ask.scope)
            && p == Pending(ask.clientID, ask.redirectURI, ask.challenge, p.scopes, s.now + 600, "")
            && SharedOf(t) == SharedOf(s).(pendings := s.pendings[id := Entry(p, Some(s.now + 600))]))
      else t == s
  {
    RequestedIs(ask.scope, s.grantable);
    hide Fields, ListsOnce, Requested, ValidPKCE;
  }

  // ---- the person's two calls ----

  /** The request is cached and in time. */
  predicate Open(s: State, id: Secret) {
    Hit(s.pendings, id, s.now) && s.now < s.pendings[id].value.expiresAt
  }

  /**
   The first session to view an open request is bound to it, with its deadline
   as it was; that session sees it again, and no other ever does.
  */
  lemma ViewBindsTheFirstSession(s: State, h: nat, id: Secret, who: Principal, a: Secret, b: Secret)
    ensures var t := Alone(s, h, View(id, who), a, b);
      if Open(s, id) && s.pendings[id].value.session in {"", who.session} then
        && t.handlers[h] == Done(Viewed)
        && id in t.pendings && t.pendings[id].value == s.pendings[id].value.(session := who.session)
        && (s.pendings[id].value.session == "" ==> t.pendings[id].expires == Some(s.pendings[id].value.expiresAt))
        && SharedOf(t) == if s.pendings[id].value.session == "" then SharedOf(s).(pendings := s.pendings[id := t.pendings[id]]) else SharedOf(s)
      else t.handlers[h] == Done(NotFound) && SharedOf(t) == SharedOf(s)
  {
    AloneHasItsEffect(s, h, View(id, who), a, b);
    hide Alone;
  }

  /**
   The session a request is bound to decides it: a denial consumes it, and an
   approval trades it for a code, good for a minute, that carries the request,
   the person and exactly the requested scopes the person holds.
  */
  lemma ApprovalIssuesCode(s: State, h: nat, id: Secret, who: Principal, allow: bool, code: Secret, b: Secret)
    ensures var t := Alone(s, h, Decide(id, who, allow), code, b);
      if Open(s, id) && who.session != "" && s.pendings[id].value.session == who.session then
        var taken := SharedOf(s).(pendings := s.pendings - {id});
        if !allow then t.handlers[h] == Done(Denied) && SharedOf(t) == taken
        else
          && t.handlers[h] == Done(Redirected(code))
          && Digest(code) in t.codes
          && (var c := t.codes[Digest(code)].value;
              && c == Code(s.pendings[id].value, c.userID, who.identity, c.granted)
              && Selects(c.granted, s.pendings[id].value.scopes, ToSet(who.scopes) + {PUBLIC_READ})
              && c.userID in t.people.users && t.people.users[c.userID] == User(who.identity.person, who.identity.email, who.identity.login)
              && SharedOf(t) == taken.(people := t.people, codes := s.codes[Digest(code) := Entry(c, Some(s.now + 60))]))
      else t.handlers[h] == Done(NotFound) && SharedOf(t) == SharedOf(s)
  {
    hide Alone, Granted, Selects, Upsert, UpsertedID;
    AloneHasItsEffect(s, h, Decide(id, who, allow), code, b);
    UpsertedUser(s.people, who.identity);
    if Hit(s.pendings, id, s.now) {
      GrantedIs(s.pendings[id].value.scopes, who.scopes);
    }
  }

  /** The person's row is there, up to date. */
  lemma UpsertedUser(people: People, who: Identity)
    ensures var id, after := UpsertedID(people, who), Upsert(people, who);
      id in after.users && after.users[id] == User(who.person, who.email, who.login)
  {
  }

  // ---- redeeming ----

  /** The form is the one the code asks for. */
  predicate Fits(s: State, form: RedeemForm, p: Pending) {
    Proves(s.env, form, p) && form.clientID == p.clientID && form.redirectURI == p.redirectURI && form.resource == s.env.audience
  }

  /** The code is cached and was not redeemed lately. */
  predicate Redeemable(s: State, form: RedeemForm) {
    form.code.Some? && Hit(s.codes, Digest(form.code.value), s.now) && !Hit(s.redeemed, Digest(form.code.value), s.now)
  }

  /**
   A code is answered with tokens exactly when it is redeemable and the form is
   its own. The answer is for the code's client, person and scopes, and starts a
   family whose one row holds them; the code is gone and remembered as redeemed.
  */
  lemma RedemptionIsServed(s: State, h: nat, form: RedeemForm, family: Secret, refresh: Secret)
    ensures var t := Alone(s, h, Redeem(form), family, refresh);
      t.handlers[h].Done? && (t.handlers[h].outcome.Issued? <==>
        Redeemable(s, form) && Fits(s, form, s.codes[Digest(form.code.value)].value.pending))
    ensures var t := Alone(s, h, Redeem(form), family, refresh);
      t.handlers[h].outcome.Issued? ==>
        var k := Digest(form.code.value);
        var c := s.codes[k].value;
        && t.handlers[h].outcome ==
             Issued(Access(h, k, family, c.identity.person, c.pending.clientID, c.granted, false), refresh, JoinScopes(c.granted))
        && SharedOf(t) == SharedOf(s).(
             codes := s.codes - {k},
             redeemed := s.redeemed[k := Entry(family, Some(s.now + 600))],
             tokens := s.tokens[Digest(refresh) := Row(family, c.userID, c.pending.clientID, JoinScopes(c.granted), s.now, None, None)])
  {
    AloneHasItsEffect(s, h, Redeem(form), family, refresh);
    hide Alone, JoinScopes, ValidPKCE, RevokeRows;
  }

  /**
   A redemption that is refused: a replay ends the family that the code started
   and takes the marker, a form that is not the code's costs the code, and
   nothing else changes.
  */
  lemma RefusedRedemptionChanges(s: State, h: nat, form: RedeemForm, family: Secret, refresh: Secret)
    requires form.code.Some?
    ensures var t, k := Alone(s, h, Redeem(form), family, refresh), Digest(form.code.value);
      if Hit(s.redeemed, k, s.now) then
        var f := s.redeemed[k].value;
        && t.handlers[h] == Done(Rejected(ReplayedCode(f)))
        && SharedOf(t) == SharedOf(s).(redeemed := s.redeemed - {k}, tokens := t.tokens) && Revoked(s.tokens, t.tokens, f)
      else if !Hit(s.codes, k, s.now) then t.handlers[h] == Done(Rejected(UnknownCode)) && SharedOf(t) == SharedOf(s)
      else !Fits(s, form, s.codes[k].value.pending) ==>
        && t.handlers[h] == Done(Rejected(FirstMisfit(s, form, s.codes[k].value.pending)))
        && SharedOf(t) == SharedOf(s).(codes := s.codes - {k})
  {
    AloneHasItsEffect(s, h, Redeem(form), family, refresh);
    hide Alone, JoinScopes, ValidPKCE;
  }

  /** The rows of the family are revoked, and no other row changes. */
  ghost predicate Revoked(before: map<Digest, Row>, after: map<Digest, Row>, family: Secret) {
    && after.Keys == before.Keys
    && forall d | d in before ::
         if before[d].family == family then after[d].revokedAt.Some? else after[d] == before[d]
  }

  function FirstMisfit(s: State, form: RedeemForm, p: Pending): TokenError {
    if !Proves(s.env, form, p) then BadVerifier
    else if form.clientID != p.clientID then WrongClient
    else if form.redirectURI != p.redirectURI then WrongRedirect
    else WrongResource
  }

  // ---- refreshing ----

  /** The token is live, in date, somebody's, and presented by its own client or by one that gives no name. */
  predicate Refreshes(s: State, ask: RefreshForm) {
    ask.token.Some? && Digest(ask.token.value) in s.tokens
    && var row := s.tokens[Digest(ask.token.value)];
      && row.lastUsedAt.None? && row.revokedAt.None?
      && s.now <= row.issuedAt + s.env.refreshTTL
      && row.userID in s.people.users
      && (ask.clientID == "" || ask.clientID == row.clientID)
  }

  /** The scopes of a refresh: those it names, or all that is left of the grant. */
  ghost predicate Continues(scopes: seq<string>, raw: string, granted: seq<string>, grantable: set<string>) {
    if Fields(raw) == [] then Remains(scopes, granted, grantable) else scopes == Fields(raw)
  }

  /**
   A refresh is answered with tokens exactly when the token may be refreshed and
   each scope it names is left of the grant. The answer has those scopes, or all
   that is left when it names none; the token is used up, and its successor
   holds the same scopes for the same family, person and client from now on.
  */
  lemma RefreshIsServed(s: State, h: nat, ask: RefreshForm, next: Secret, b: Secret)
    ensures var t := Alone(s, h, Refresh(ask), next, b);
      t.handlers[h].Done? && (t.handlers[h].outcome.Issued? <==>
        Refreshes(s, ask)
        && forall sc | sc in Fields(ask.scope) :: Left(sc, Fields(s.tokens[Digest(ask.token.value)].scope), s.grantable))
    ensures var t := Alone(s, h, Refresh(ask), next, b);
      t.handlers[h].outcome.Issued? ==>
        var used := Digest(ask.token.value);
        var row := s.tokens[used];
        var scopes := t.handlers[h].outcome.access.scopes;
        && Continues(scopes, ask.scope, Fields(row.scope), s.grantable)
        && t.handlers[h].outcome ==
             Issued(Access(h, used, row.family, s.people.users[row.userID].person, row.clientID, scopes, true), next, JoinScopes(scopes))
        && SharedOf(t) == SharedOf(s).(tokens := s.tokens[used := row.(lastUsedAt := Some(s.now))][
             Digest(next) := Row(row.family, row.userID, row.clientID, JoinScopes(scopes), s.now, None, None)])
  {
    AloneHasItsEffect(s, h, Refresh(ask), next, b);
    if ask.token.Some? && Digest(ask.token.value) in s.tokens {
      RefreshedIs(s.tokens[Digest(ask.token.value)].scope, ask.scope, s.grantable);
    }
    hide Alone, JoinScopes, RevokeRows, Fields, Refreshed, Remains, Left;
  }

  /**
   A refresh that is refused ends the family when the token was used before or
   is out of date, and otherwise changes nothing: neither does another client
   that presents it, nor one that asks for too much.
  */
  lemma RefusedRefreshChanges(s: State, h: nat, ask: RefreshForm, next: Secret, b: Secret)
    requires ask.token.Some? && Digest(ask.token.value) in s.tokens
    requires s.tokens[Digest(ask.token.value)].userID in s.people.users
    ensures var t, row := Alone(s, h, Refresh(ask), next, b), s.tokens[Digest(ask.token.value)];
      if row.revokedAt.Some? then t.handlers[h] == Done(Rejected(RevokedToken)) && SharedOf(t) == SharedOf(s)
      else if row.lastUsedAt.Some? || s.now > row.issuedAt + s.env.refreshTTL then
        && t.handlers[h] == Done(Rejected(if row.lastUsedAt.Some? then ReusedToken(row.family) else DisusedToken(row.family)))
        && SharedOf(t) == SharedOf(s).(tokens := t.tokens) && Revoked(s.tokens, t.tokens, row.family)
      else if ask.clientID != "" && ask.clientID != row.clientID then
        t.handlers[h] == Done(Rejected(WrongClient)) && SharedOf(t) == SharedOf(s)
      else
        t.handlers[h].Done? && (!t.handlers[h].outcome.Issued? ==>
          t.handlers[h].outcome == Rejected(ScopeNotGranted) && SharedOf(t) == SharedOf(s))
  {
    AloneHasItsEffect(s, h, Refresh(ask), next, b);
    hide Alone, JoinScopes, Fields, Refreshed;
  }

  /**
   A refresh that names no scope adds none to the grant, unless nothing granted
   is grantable any more: then it has public:read, which was not granted.
  */
  lemma RefreshWidensIff(s: State, h: nat, ask: RefreshForm, next: Secret, b: Secret)
    requires PUBLIC_READ in s.grantable && Refreshes(s, ask) && Fields(ask.scope) == []
    ensures var t := Alone(s, h, Refresh(ask), next, b);
      var granted := Fields(s.tokens[Digest(ask.token.value)].scope);
      t.handlers[h].Done? && t.handlers[h].outcome.Issued?
      && ((exists sc :: sc in t.handlers[h].outcome.access.scopes && sc !in granted) <==>
            forall sc | sc in granted :: sc !in s.grantable)
  {
    hide Alone, Selects;
    var granted := Fields(s.tokens[Digest(ask.token.value)].scope);
    RefreshIsServed(s, h, ask, next, b);
    var scopes := Alone(s, h, Refresh(ask), next, b).handlers[h].outcome.access.scopes;
    if exists sc :: sc in granted && sc in s.grantable {
      forall sc | sc in scopes ensures sc in granted {
        SelectsIff(scopes, granted, s.grantable, sc);
      }
    } else {
      assert scopes[0] == PUBLIC_READ;
    }
  }

  // ---- revoking ----

  /** Whoever holds a refresh token, even a used one, ends its family and no other; an unknown one changes nothing. */
  lemma RevocationEndsTheFamily(s: State, h: nat, token: Secret, a: Secret, b: Secret)
    ensures var t := Alone(s, h, Revoke(Some(token)), a, b);
      if Digest(token) in s.tokens then
        && t.handlers[h] == Done(RevokedFamily(s.tokens[Digest(token)].family))
        && SharedOf(t) == SharedOf(s).(tokens := t.tokens) && Revoked(s.tokens, t.tokens, s.tokens[Digest(token)].family)
      else t.handlers[h] == Done(NothingToRevoke) && SharedOf(t) == SharedOf(s)
  {
    AloneHasItsEffect(s, h, Revoke(Some(token)), a, b);
    hide Alone;
  }

  // ---- the whole flow ----

  /** One authorization: what is asked, by whom it is approved, the secrets drawn, and the pauses between the calls. */
  datatype Flow = Flow(
    id: Secret, ask: AuthRequest, who: Principal, code: Secret, verifier: string, family: Secret, refresh: Secret, next: Secret,
    pauses: (nat, nat, nat, nat))

  function After(s: State, seconds: nat): State {
    Do(s, Tick(seconds))
  }

  /** Authorize, then the person views and approves; h is the handlers' number throughout. */
  function Approved(s: State, h: nat, f: Flow): State {
    var viewed := Alone(After(DoAuthorize(s, f.id, f.ask), f.pauses.0), h, View(f.id, f.who), f.code, f.family);
    Alone(After(viewed, f.pauses.1), h, Decide(f.id, f.who, true), f.code, f.family)
  }

  function Form(f: Flow): RedeemForm {
    RedeemForm(Some(f.code), f.verifier, f.ask.clientID, f.ask.redirectURI, f.ask.resource)
  }

  function Redeemed(s: State, h: nat, f: Flow): State {
    Alone(After(Approved(s, h, f), f.pauses.2), h, Redeem(Form(f)), f.family, f.refresh)
  }

  function Renewed(s: State, h: nat, f: Flow): State {
    Alone(After(Redeemed(s, h, f), f.pauses.3), h, Refresh(RefreshForm(Some(f.refresh), f.ask.clientID, "")), f.next, f.family)
  }

  /** Everybody is in time and says what they should. */
  predicate InOrder(s: State, f: Flow) {
    && Proper(s, f.ask) && f.who.session != "" && PUBLIC_READ in s.grantable
    && ValidPKCE(f.verifier) && s.env.s256(f.verifier) == f.ask.challenge
    && f.pauses.0 + f.pauses.1 < 600 && f.pauses.2 <= 60 && f.pauses.3 <= s.env.refreshTTL
    && Digest(f.code) !in s.redeemed
  }

  ghost predicate SameSettings(s: State, t: State) {
    t.now == s.now && t.env == s.env && t.grantable == s.grantable
  }

  lemma BeginKeepsSettings(s: State, h: nat, call: Call)
    ensures SameSettings(s, DoBegin(s, h, call))
  {
    hide ViewPc, DecidePc, RefreshPc, RevokePc;
  }

  lemma AdvanceKeepsSettings(s: State, h: nat, a: Secret, b: Secret)
    requires h in s.handlers
    ensures SameSettings(s, DoAdvance(s, h, a, b))
  {
    if s.handlers[h].Viewing? || s.handlers[h].Consuming? || s.handlers[h].Recording? || s.handlers[h].Coding? {
      ConsentKeepsSettings(s, h, a, b);
    } else {
      TokenKeepsSettings(s, h, a, b);
    }
    hide DoAdvance;
  }

  lemma ConsentKeepsSettings(s: State, h: nat, a: Secret, b: Secret)
    requires h in s.handlers
    requires s.handlers[h].Viewing? || s.handlers[h].Consuming? || s.handlers[h].Recording? || s.handlers[h].Coding?
    ensures SameSettings(s, DoAdvance(s, h, a, b))
  {
    hide ResolvePc, TakeCode, StartFamily, MarkRedeemed, Rotate, FinishRevoking, Upsert, UpsertedID, Granted;
  }

  lemma TokenKeepsSettings(s: State, h: nat, a: Secret, b: Secret)
    requires h in s.handlers
    requires !s.handlers[h].Viewing? && !s.handlers[h].Consuming? && !s.handlers[h].Recording? && !s.handlers[h].Coding?
    ensures SameSettings(s, DoAdvance(s, h, a, b))
  {
    hide ResolvePc, CheckCode, JoinScopes, InsertRow, RotateRow, RevokeRows, Bind, Consume, Record, IssueCode;
  }

  lemma AloneKeepsSettings(s: State, h: nat, call: Call, a: Secret, b: Secret)
    ensures SameSettings(s, Alone(s, h, call, a, b))
  {
    hide DoBegin, DoAdvance;
    BeginKeepsSettings(s, h, call);
    var t := DoBegin(s, h, call);
    AdvanceKeepsSettings(t, h, a, b);
    var u := DoAdvance(t, h, a, b);
    AdvanceKeepsSettings(u, h, a, b);
    AdvanceKeepsSettings(DoAdvance(u, h, a, b), h, a, b);
  }

  /** A tick, for what the handlers read. */
  lemma AfterIs(s: State, seconds: nat)
    ensures var t := After(s, seconds);
      t.now == s.now + seconds && t.env == s.env && t.grantable == s.grantable && SharedOf(t) == SharedOf(s)
  {
  }

  /** What the code of an approved flow carries. */
  ghost predicate CarriesApproval(s: State, t: State, f: Flow, granted: seq<string>) {
    var k := Digest(f.code);
    && k in t.codes && t.codes[k].expires == Some(t.now + 60) && k !in t.redeemed
    && (var c := t.codes[k].value;
        && c.pending.clientID == f.ask.clientID && c.pending.redirectURI == f.ask.redirectURI && c.pending.challenge == f.ask.challenge
        && c.identity == f.who.identity && c.granted == granted
        && c.userID in t.people.users && t.people.users[c.userID].person == f.who.identity.person)
    && t.env == s.env && t.grantable == s.grantable
  }

  /** The scopes a flow ends with: of those asked for, the ones the person holds. */
  ghost predicate FlowGrants(f: Flow, granted: seq<string>) {
    exists requested :: AsksFor(requested, f.ask.scope) && Selects(granted, requested, ToSet(f.who.scopes) + {PUBLIC_READ})
  }

  lemma ApprovalCarries(s: State, h: nat, f: Flow) returns (granted: seq<string>)
    requires InOrder(s, f)
    ensures FlowGrants(f, granted) && CarriesApproval(s, Approved(s, h, f), f, granted)
    ensures Approved(s, h, f).handlers[h] == Done(Redirected(f.code))
  {
    hide Alone, DoAuthorize, Selects, AsksFor, After;
    var s1 := DoAuthorize(s, f.id, f.ask);
    AuthorizeStoresWhatWasAsked(s, f.id, f.ask);
    AuthorizeKeepsSettings(s, f.id, f.ask);
    var s2 := After(s1, f.pauses.0);
    AfterIs(s1, f.pauses.0);
    ViewBindsTheFirstSession(s2, h, f.id, f.who, f.code, f.family);
    AloneKeepsSettings(s2, h, View(f.id, f.who), f.code, f.family);
    var s3 := Alone(s2, h, View(f.id, f.who), f.code, f.family);
    var s4 := After(s3, f.pauses.1);
    AfterIs(s3, f.pauses.1);
    ApprovalIssuesCode(s4, h, f.id, f.who, true, f.code, f.family);
    AloneKeepsSettings(s4, h, Decide(f.id, f.who, true), f.code, f.family);
    granted := Approved(s, h, f).codes[Digest(f.code)].value.granted;
    assert AsksFor(s1.pendings[f.id].value.scopes, f.ask.scope);
  }

  lemma AuthorizeKeepsSettings(s: State, id: Secret, ask: AuthRequest)
    ensures SameSettings(s, DoAuthorize(s, id, ask))
  {
  }

  lemma GrantsAreGrantable(s: State, f: Flow, granted: seq<string>)
    requires InOrder(s, f) && FlowGrants(f, granted)
    ensures AllWords(granted) && forall sc | sc in granted :: sc in s.grantable
  {
    var requested :| AsksFor(requested, f.ask.scope) && Selects(granted, requested, ToSet(f.who.scopes) + {PUBLIC_READ});
    hide Selects, Fields, IsWord, ValidPKCE;
    forall sc | sc in granted ensures IsWord(sc) && sc in s.grantable {
      SelectsIff(granted, requested, ToSet(f.who.scopes) + {PUBLIC_READ}, sc);
      assert IsWord(PUBLIC_READ) by { FieldsOfWord(PUBLIC_READ); }
    }
  }

  lemma RedemptionCarries(s: State, h: nat, f: Flow, granted: seq<string>)
    requires InOrder(s, f) && CarriesApproval(s, Approved(s, h, f), f, granted)
    ensures Redeemed(s, h, f).handlers[h] ==
      Done(Issued(Access(h, Digest(f.code), f.family, f.who.identity.person, f.ask.clientID, granted, false), f.refresh, JoinScopes(granted)))
    ensures var t := Redeemed(s, h, f);
      && Digest(f.refresh) in t.tokens
      && (var row := t.tokens[Digest(f.refresh)];
          && row == Row(f.family, row.userID, f.ask.clientID, JoinScopes(granted), t.now, None, None)
          && row.userID in t.people.users && t.people.users[row.userID].person == f.who.identity.person)
      && t.env == s.env && t.grantable == s.grantable
  {
    hide Alone, After, Approved, JoinScopes, ValidPKCE;
    var s5 := Approved(s, h, f);
    var s6 := After(s5, f.pauses.2);
    AfterIs(s5, f.pauses.2);
    RedemptionIsServed(s6, h, Form(f), f.family, f.refresh);
    AloneKeepsSettings(s6, h, Redeem(Form(f)), f.family, f.refresh);
  }

  lemma RenewalCarries(s: State, h: nat, f: Flow, granted: seq<string>)
    requires InOrder(s, f) && FlowGrants(f, granted) && CarriesApproval(s, Approved(s, h, f), f, granted)
    ensures var scopes := if granted == [] then [PUBLIC_READ] else granted;
      Renewed(s, h, f).handlers[h] ==
        Done(Issued(Access(h, Digest(f.refresh), f.family, f.who.identity.person, f.ask.clientID, scopes, true), f.next, JoinScopes(scopes)))
  {
    hide Alone, After, Redeemed, JoinScopes, Selects, FlowGrants, Proper;
    RedemptionCarries(s, h, f, granted);
    GrantsAreGrantable(s, f, granted);
    JoinRoundTrip(granted);
    assert Fields("") == [];
    var s7 := Redeemed(s, h, f);
    var s8 := After(s7, f.pauses.3);
    AfterIs(s7, f.pauses.3);
    var ask := RefreshForm(Some(f.refresh), f.ask.clientID, "");
    RefreshIsServed(s8, h, ask, f.next, f.family);
    var scopes := Renewed(s, h, f).handlers[h].outcome.access.scopes;
    if granted != [] {
      assert granted[0] in granted;
      SelectsAll(scopes, granted, s.grantable);
    }
  }

  /**
   When everybody is in time and says what they should, the redemption is
   answered with tokens for the person, the client and exactly those requested
   scopes that the person holds, and the refresh after it with the same, or with
   public:read when the person holds none.
  */
  lemma ApprovedFlowIsServed(s: State, h: nat, f: Flow) returns (granted: seq<string>)
    requires InOrder(s, f)
    ensures FlowGrants(f, granted)
    ensures Redeemed(s, h, f).handlers[h] ==
      Done(Issued(Access(h, Digest(f.code), f.family, f.who.identity.person, f.ask.clientID, granted, false), f.refresh, JoinScopes(granted)))
    ensures var scopes := if granted == [] then [PUBLIC_READ] else granted;
      Renewed(s, h, f).handlers[h] ==
        Done(Issued(Access(h, Digest(f.refresh), f.family, f.who.identity.person, f.ask.clientID, scopes, true), f.next, JoinScopes(scopes)))
  {
    hide InOrder, FlowGrants, CarriesApproval, Redeemed, Renewed, Approved;
    granted := ApprovalCarries(s, h, f);
    RedemptionCarries(s, h, f, granted);
    RenewalCarries(s, h, f, granted);
  }
}
