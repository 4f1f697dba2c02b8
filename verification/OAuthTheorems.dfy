/** Safety of the authorization server over every run. */
module OAuthTheorems {
  import opened Wrappers
  import opened Scopes
  import opened OAuthState
  import opened OAuthMachine
  import opened OAuthInvariant

  // ---- every step keeps the invariant ----

  /** The handlers' facts survive a step that moves none of them. */
  lemma HandlersStill(s: State, t: State)
    requires Grows(s, t) && HandlersOk(s)
    requires t.handlers == s.handlers && t.hist == s.hist.(requests := t.hist.requests)
    ensures HandlersOk(t)
  {
    forall h | h in t.handlers ensures HandlerOk(t, h, t.handlers[h]) {
      StillOk(s, t, h, s.handlers[h]);
    }
  }

  lemma StillOk(s: State, t: State, h: nat, pc: Handler)
    requires Grows(s, t) && HandlerOk(s, h, pc)
    requires t.hist == s.hist.(requests := t.hist.requests)
    ensures HandlerOk(t, h, pc)
  {
  }

  lemma AuthorizeWrites(s: State, id: Secret, ask: AuthRequest)
    requires RequestsOk(s, s) && PendingsOk(s.pendings, s.hist.requests)
    requires id !in s.drawn && AuthorizeScopes(s, ask).Some?
    ensures var t := DoAuthorize(s, id, ask);
      Grows(s, t) && RequestOk(t, id) && PendingsOk(t.pendings, t.hist.requests)
  {
    assert id !in s.hist.requests;
    hide RequestsOk;
  }

  lemma AuthorizeKeeps(s: State, id: Secret, ask: AuthRequest)
    requires Inv(s) && id !in s.drawn && AuthorizeScopes(s, ask).Some?
    ensures Inv(DoAuthorize(s, id, ask)) && Grows(s, DoAuthorize(s, id, ask))
  {
    hide RequestsOk, DecisionsOk, CodesOk, FamiliesOk, RowsOk, MintedOk, PeopleOk, PendingsOk, CacheOk, OneLive, MarkersOk;
    hide ReplaysOk, HandlersOk, HandlerOk, Grows;
    var t := DoAuthorize(s, id, ask);
    AuthorizeWrites(s, id, ask);
    HandlersStill(s, t);
    FactsFrame(s, t);
    hide Facts, RequestOk, DecisionOk, CodeOk, FamilyOk, LineOk, AccessOk;
    FactsExtend(s, t);
  }

  lemma BeginKeeps(s: State, h: nat, call: Call)
    requires Inv(s) && h !in s.handlers
    ensures Inv(DoBegin(s, h, call)) && Grows(s, DoBegin(s, h, call))
  {
    hide PeopleOk, PendingsOk, CacheOk, OneLive, MarkersOk, ReplaysOk, KeysOk, HandlersOk, HandlerOk, Grows;
    hide RequestsOk, DecisionsOk, CodesOk, FamiliesOk, RowsOk, MintedOk, ViewPc, DecidePc, RefreshPc, RevokePc;
    match call
    case View(id, principal) =>
      ViewPcOk(s, h, id, principal);
      AtKeeps(s, h, ViewPc(s, id, principal));
    case Decide(id, principal, allow) =>
      DecidePcOk(s, h, id, principal, allow);
      AtKeeps(s, h, DecidePc(s, id, principal, allow));
    case Redeem(form) =>
      if form.code.Some? && Hit(s.redeemed, Digest(form.code.value), s.now) {
        ReplayKeeps(s, Replay(s, h, Digest(form.code.value)), h, Digest(form.code.value));
      } else {
        RedeemPcOk(s, h, form);
        AtKeeps(s, h, DoBegin(s, h, call).handlers[h]);
      }
    case Refresh(ask) =>
      RefreshPcOk(s, h, ask);
      AtKeeps(s, h, RefreshPc(s, ask));
    case Revoke(token) =>
      RevokePcOk(s, h, token);
      AtKeeps(s, h, RevokePc(s, token));
  }

  lemma RedeemPcOk(s: State, h: nat, form: RedeemForm)
    requires KeysOk(s.hist, s.handlers) && h !in s.handlers
    ensures HandlerOk(s, h, Done(Rejected(MissingParameter)))
    ensures form.code.Some? ==> HandlerOk(s, h, Taking(form.code.value, form))
  {
  }

  lemma MissOk(s: State, h: nat, outcome: Outcome)
    requires outcome.Ended().None? && !outcome.Issued?
    requires h in s.handlers && HandlerOk(s, h, s.handlers[h]) && !s.handlers[h].Done?
    ensures HandlerOk(s, h, Done(outcome))
  {
  }

  lemma LostOk(s: State, h: nat, token: Secret, current: Row, user: User, scopes: seq<string>)
    requires RowsOk(s, s) && HandlerOk(s, h, Rotating(token, current, user, scopes))
    ensures HandlerOk(s, h, Revoking(current.family, Rejected(ReusedToken(current.family))))
  {
    assert LineOk(s, s.tokens[Digest(token)]);
  }

  lemma ConsentKeeps(s: State, h: nat, first: Secret, second: Secret)
    requires Inv(s) && h in s.handlers && first !in s.drawn
    requires s.handlers[h].Viewing? || s.handlers[h].Consuming? || s.handlers[h].Recording? || s.handlers[h].Coding?
    ensures Inv(DoAdvance(s, h, first, second)) && Grows(s, DoAdvance(s, h, first, second))
  {
    var t := DoAdvance(s, h, first, second);
    assert HandlerOk(s, h, s.handlers[h]);
    hide PeopleOk, PendingsOk, CacheOk, OneLive, MarkersOk, ReplaysOk, KeysOk, HandlersOk, HandlerOk, Grows;
    hide RequestsOk, DecisionsOk, CodesOk, FamiliesOk, RowsOk, MintedOk, Bind, Consume, Record, IssueCode;
    match s.handlers[h]
    case Viewing(id, p) => BindKeeps(s, t, h, id, p);
    case Consuming(id, principal, allow, p) =>
      if Hit(s.pendings, id, s.now) {
        ConsumeKeeps(s, t, h, id, principal, allow, p);
      } else {
        MissOk(s, h, NotFound);
        AtKeeps(s, h, Done(NotFound));
      }
    case Recording(principal, p) => RecordKeeps(s, t, h, principal, p);
    case Coding(principal, p, userID) => IssueCodeKeeps(s, t, h, principal, p, userID, first);
  }

  lemma RedeemKeeps(s: State, h: nat, first: Secret, second: Secret)
    requires Inv(s) && h in s.handlers
    requires first !in s.drawn && second !in s.drawn && first != second
    requires s.handlers[h].Taking? || s.handlers[h].Starting? || s.handlers[h].Marking?
    ensures Inv(DoAdvance(s, h, first, second)) && Grows(s, DoAdvance(s, h, first, second))
  {
    var t := DoAdvance(s, h, first, second);
    assert HandlerOk(s, h, s.handlers[h]);
    hide PeopleOk, PendingsOk, CacheOk, OneLive, MarkersOk, ReplaysOk, KeysOk, HandlersOk, HandlerOk, Grows;
    hide RequestsOk, DecisionsOk, CodesOk, FamiliesOk, RowsOk, MintedOk, TakeCode, StartFamily, MarkRedeemed;
    match s.handlers[h]
    case Taking(code, form) =>
      if Hit(s.codes, Digest(code), s.now) {
        TakeCodeKeeps(s, t, h, code, form);
      } else {
        MissOk(s, h, Rejected(UnknownCode));
        AtKeeps(s, h, Done(Rejected(UnknownCode)));
      }
    case Starting(code, form, c) => StartFamilyKeeps(s, t, h, code, form, c, first, second);
    case Marking(code, c, family, refresh) => MarkRedeemedKeeps(s, t, h, code, c, family, refresh);
  }

  lemma RefreshKeeps(s: State, h: nat, first: Secret, second: Secret)
    requires Inv(s) && h in s.handlers && first !in s.drawn
    requires s.handlers[h].Resolving? || s.handlers[h].Rotating? || s.handlers[h].Revoking?
    ensures Inv(DoAdvance(s, h, first, second)) && Grows(s, DoAdvance(s, h, first, second))
  {
    var t := DoAdvance(s, h, first, second);
    assert HandlerOk(s, h, s.handlers[h]);
    hide PeopleOk, PendingsOk, CacheOk, OneLive, MarkersOk, ReplaysOk, KeysOk, HandlersOk, HandlerOk, Grows;
    hide RequestsOk, DecisionsOk, CodesOk, FamiliesOk, RowsOk, MintedOk, ResolvePc, Rotate, FinishRevoking;
    match s.handlers[h]
    case Resolving(token, ask, current) =>
      ResolvePcOk(s, h, token, ask, current);
      AtKeeps(s, h, ResolvePc(s, token, ask, current));
    case Rotating(token, current, user, scopes) =>
      if Digest(token) in s.tokens && s.tokens[Digest(token)].Live() {
        RotateKeeps(s, t, h, token, current, user, scopes, first);
      } else {
        LostOk(s, h, token, current, user, scopes);
        AtKeeps(s, h, Revoking(current.family, Rejected(ReusedToken(current.family))));
      }
    case Revoking(family, next) => FinishRevokingKeeps(s, t, h, family, next);
  }

  lemma AdvanceKeeps(s: State, h: nat, first: Secret, second: Secret)
    requires Inv(s) && h in s.handlers
    requires first !in s.drawn && second !in s.drawn && first != second
    ensures Inv(DoAdvance(s, h, first, second)) && Grows(s, DoAdvance(s, h, first, second))
  {
    hide Inv, Grows;
    match s.handlers[h]
    case Done(_) => SettingsGrow(s, s);
    case Viewing(_, _) => hide DoAdvance; ConsentKeeps(s, h, first, second);
    case Consuming(_, _, _, _) => hide DoAdvance; ConsentKeeps(s, h, first, second);
    case Recording(_, _) => hide DoAdvance; ConsentKeeps(s, h, first, second);
    case Coding(_, _, _) => hide DoAdvance; ConsentKeeps(s, h, first, second);
    case Taking(_, _) => hide DoAdvance; RedeemKeeps(s, h, first, second);
    case Starting(_, _, _) => hide DoAdvance; RedeemKeeps(s, h, first, second);
    case Marking(_, _, _, _) => hide DoAdvance; RedeemKeeps(s, h, first, second);
    case _ => hide DoAdvance; RefreshKeeps(s, h, first, second);
  }

  lemma SettingsGrow(s: State, t: State)
    requires t == s.(now := t.now, grantable := t.grantable)
    ensures Grows(s, t)
  {
  }

  lemma SettingsKeep(s: State, t: State)
    requires Inv(s) && t == s.(now := t.now, grantable := t.grantable)
    ensures Inv(t) && Grows(s, t)
  {
    hide RequestsOk, DecisionsOk, CodesOk, FamiliesOk, RowsOk, MintedOk, PeopleOk, PendingsOk, CacheOk, OneLive, MarkersOk;
    hide ReplaysOk, KeysOk, HandlersOk, HandlerOk, Grows;
    SettingsGrow(s, t);
    HandlersStill(s, t);
    FactsFrame(s, t);
    hide Facts, RequestOk, DecisionOk, CodeOk, FamilyOk, LineOk, AccessOk;
    FactsExtend(s, t);
  }

  lemma DoKeeps(s: State, a: Action)
    requires Inv(s)
    ensures Inv(Do(s, a)) && Grows(s, Do(s, a))
  {
    if a.Tick? || a.Reconfigure? {
      hide Inv, Grows;
      SettingsKeep(s, Do(s, a));
    } else if Do(s, a) == s {
      hide Inv, Grows;
      SettingsGrow(s, s);
    } else {
      hide Inv, Grows, DoAuthorize, DoBegin, DoAdvance;
      match a
      case Authorize(id, ask) => AuthorizeKeeps(s, id, ask);
      case Begin(h, call) => BeginKeeps(s, h, call);
      case Advance(h, first, second) => AdvanceKeeps(s, h, first, second);
    }
  }

  lemma GrowsThrough(s: State, t: State, u: State)
    requires Grows(s, t) && Grows(t, u)
    ensures Grows(s, u)
  {
  }

  /** Whatever the interleaving, the invariant holds and the history only grows. */
  lemma {:induction false} RunKeeps(s: State, actions: seq<Action>)
    requires Inv(s)
    ensures Inv(Run(s, actions)) && Grows(s, Run(s, actions))
    decreases |actions|
  {
    hide Inv, Grows, Do;
    if actions == [] {
      SettingsGrow(s, s);
    } else {
      DoKeeps(s, actions[0]);
      RunKeeps(Do(s, actions[0]), actions[1..]);
      GrowsThrough(s, Do(s, actions[0]), Run(s, actions));
    }
  }

  ghost predicate Reachable(s: State) {
    exists env, actions :: s == Run(Initial(env), actions)
  }

  lemma ReachableInv(s: State)
    requires Reachable(s)
    ensures Inv(s)
  {
    var env, actions :| s == Run(Initial(env), actions);
    InitialInv(env);
    RunKeeps(Initial(env), actions);
  }

  // ---- who an access token speaks for ----

  /** The chain behind an access token: family, code, deciding handler, request. */
  ghost predicate Traced(s: State, a: Access) {
    && a.family in s.hist.families
    && s.hist.families[a.family].code in s.hist.codes
    && s.hist.codes[s.hist.families[a.family].code].decider in s.hist.decisions
    && DecisionOf(s, a).id in s.hist.requests
  }

  ghost function DecisionOf(s: State, a: Access): Decision
    requires a.family in s.hist.families
    requires s.hist.families[a.family].code in s.hist.codes
    requires s.hist.codes[s.hist.families[a.family].code].decider in s.hist.decisions
  {
    s.hist.decisions[s.hist.codes[s.hist.families[a.family].code].decider]
  }

  /**
   Every access token ever signed, at redemption or after any number of
   rotations, comes from one allowed request: it carries that request's client
   and the deciding person, its scopes are those the person granted of the
   request's (after a rotation, some of them or public:read), and whoever redeemed the code held the verifier of the
   request's challenge.
  */
  lemma Correspondence(s: State, h: nat)
    requires Reachable(s) && h in s.hist.minted
    ensures var a := s.hist.minted[h];
      && Traced(s, a)
      && var d := DecisionOf(s, a);
        var r := s.hist.requests[d.id];
        && d.allow && d.p.session == d.principal.session
        && a.clientID == r.clientID
        && a.person == d.principal.identity.person
        && Within(a.scopes, Granted(r.scopes, d.principal.scopes))
        && (!a.refreshed ==> a.scopes == Granted(r.scopes, d.principal.scopes))
        && s.env.s256(s.hist.families[a.family].verifier) == r.challenge
  {
    hide PeopleOk, PendingsOk, CacheOk, OneLive, MarkersOk, ReplaysOk, KeysOk, HandlersOk;
    ReachableInv(s);
    var a := s.hist.minted[h];
    assert AccessOk(s, h);
    assert FamilyOk(s, a.family);
    var code := s.hist.families[a.family].code;
    assert CodeOk(s, code);
    assert DecisionOk(s, s.hist.codes[code].decider);
    hide Inv;
  }

  /** A code starts at most one family, and a decision issues at most one code. */
  lemma OneToOne(s: State)
    requires Reachable(s)
    ensures forall f, g | f in s.hist.families && g in s.hist.families && s.hist.families[f].code == s.hist.families[g].code :: f == g
    ensures forall k, l | k in s.hist.codes && l in s.hist.codes && s.hist.codes[k].decider == s.hist.codes[l].decider :: k == l
    ensures forall id, other | id in s.people.users && other in s.people.users && s.people.users[id].person == s.people.users[other].person :: id == other
  {
    ReachableInv(s);
    forall f, g | f in s.hist.families && g in s.hist.families && s.hist.families[f].code == s.hist.families[g].code ensures f == g {
      assert FamilyOk(s, f) && FamilyOk(s, g);
    }
    forall k, l | k in s.hist.codes && l in s.hist.codes && s.hist.codes[k].decider == s.hist.codes[l].decider ensures k == l {
      assert CodeOk(s, k) && CodeOk(s, l);
    }
  }

  /** What the history says stays said: no later step rewrites an origin or a signed token. */
  lemma HistoryIsKept(s: State, actions: seq<Action>)
    requires Reachable(s)
    ensures var t := Run(s, actions);
      && Extends(s.hist.requests, t.hist.requests) && Extends(s.hist.decisions, t.hist.decisions)
      && Extends(s.hist.codes, t.hist.codes) && Extends(s.hist.families, t.hist.families)
      && Extends(s.hist.minted, t.hist.minted)
  {
    ReachableInv(s);
    RunKeeps(s, actions);
  }

  // ---- families ----

  /** At most one token of a family can be rotated. */
  lemma OneLivePerFamily(s: State, d: Digest, e: Digest)
    requires Reachable(s)
    requires d in s.tokens && s.tokens[d].Live() && e in s.tokens && s.tokens[e].Live()
    requires s.tokens[d].family == s.tokens[e].family
    ensures d == e
  {
    ReachableInv(s);
  }

  /** Once every token of a family is revoked, no step makes a live one in it. */
  lemma RevokedForGood(s: State, family: Secret, actions: seq<Action>)
    requires Reachable(s) && family in s.hist.families && Dead(s.tokens, family)
    ensures Dead(Run(s, actions).tokens, family)
  {
    ReachableInv(s);
    RunKeeps(s, actions);
  }

  /** An answer that says a family ended is given only when it has, every row of it. */
  lemma EndedIsRevoked(s: State, h: nat)
    requires Reachable(s) && h in s.handlers && s.handlers[h].Done? && s.handlers[h].outcome.Ended().Some?
    ensures var family := s.handlers[h].outcome.Ended().value;
      family in s.hist.families && Dead(s.tokens, family)
  {
    ReachableInv(s);
    assert HandlerOk(s, h, s.handlers[h]);
  }

  ghost predicate Answered(s: State, h: nat) {
    h in s.handlers && s.handlers[h].Done? && s.handlers[h].outcome.Issued?
  }

  lemma SignedOnce(s: State, h: nat, g: nat)
    requires Inv(s) && Answered(s, h) && Answered(s, g)
    requires s.handlers[h].outcome.access.credential == s.handlers[g].outcome.access.credential
    requires s.handlers[h].outcome.access.refreshed == s.handlers[g].outcome.access.refreshed
    ensures h == g
  {
    assert HandlerOk(s, h, s.handlers[h]) && HandlerOk(s, g, s.handlers[g]);
    assert AccessOk(s, h) && AccessOk(s, g);
  }

  /** Of all answers for one refresh token, or for one code, at most one holds tokens. */
  lemma OneWinner(s: State, h: nat, g: nat)
    requires Reachable(s) && Answered(s, h) && Answered(s, g)
    requires s.handlers[h].outcome.access.credential == s.handlers[g].outcome.access.credential
    requires s.handlers[h].outcome.access.refreshed == s.handlers[g].outcome.access.refreshed
    ensures h == g
  {
    hide Inv;
    ReachableInv(s);
    SignedOnce(s, h, g);
  }

  // ---- handlers that revoke ----

  /** A handler on its way to revoking, or done with it. */
  ghost predicate Ending(s: State, h: nat, family: Secret, next: Outcome) {
    && h in s.handlers
    && (s.handlers[h] == Revoking(family, next) || (s.handlers[h] == Done(next) && Dead(s.tokens, family)))
  }

  /** A step moves only the handler it names. */
  lemma Bystander(s: State, a: Action, h: nat)
    requires h in s.handlers && !(a.Advance? && a.h == h)
    ensures h in Do(s, a).handlers && Do(s, a).handlers[h] == s.handlers[h]
  {
    hide DoBegin, DoAdvance;
  }

  lemma EndingStep(s: State, a: Action, h: nat, family: Secret, next: Outcome)
    requires Inv(s) && family in s.hist.families && Ending(s, h, family, next)
    ensures Ending(Do(s, a), h, family, next) && family in Do(s, a).hist.families
  {
    hide Inv;
    DoKeeps(s, a);
    if a.Advance? && a.h == h {
      RevokeGrows(s.hist.families, s.tokens, family, s.now);
      hide Grows, TokensGrow;
    } else {
      Bystander(s, a, h);
      hide Do;
    }
  }

  lemma {:induction false} EndingRun(s: State, actions: seq<Action>, h: nat, family: Secret, next: Outcome)
    requires Inv(s) && family in s.hist.families && Ending(s, h, family, next)
    ensures Ending(Run(s, actions), h, family, next)
    decreases |actions|
  {
    hide Inv, Ending, Do, Grows;
    if actions != [] {
      DoKeeps(s, actions[0]);
      EndingStep(s, actions[0], h, family, next);
      EndingRun(Do(s, actions[0]), actions[1..], h, family, next);
    }
  }

  lemma RevokingEnds(s: State, a: Action, actions: seq<Action>, h: nat, family: Secret, next: Outcome)
    requires Inv(s) && family in s.hist.families
    requires h in Do(s, a).handlers && Do(s, a).handlers[h] == Revoking(family, next)
    ensures Ending(Run(Do(s, a), actions), h, family, next)
  {
    hide Inv, Do, Grows;
    DoKeeps(s, a);
    assert family in Do(s, a).hist.families by { FamilyKept(s, Do(s, a), family); }
    EndingRun(Do(s, a), actions, h, family, next);
  }

  lemma FamilyKept(s: State, t: State, family: Secret)
    requires Grows(s, t) && family in s.hist.families
    ensures family in t.hist.families
  {
  }

  lemma TokenFamily(s: State, h: nat, token: Secret, current: Row)
    requires Inv(s) && h in s.handlers
    requires s.handlers[h].Rotating? || s.handlers[h].Resolving?
    requires s.handlers[h].token == token && s.handlers[h].current == current
    ensures Digest(token) in s.tokens && s.tokens[Digest(token)].family == current.family
    ensures current.family in s.hist.families
  {
    assert HandlerOk(s, h, s.handlers[h]);
    assert LineOk(s, s.tokens[Digest(token)]);
    hide Inv;
  }

  lemma LoserMoves(s: State, h: nat, first: Secret, second: Secret)
    requires h in s.handlers && s.handlers[h].Rotating?
    requires first !in s.drawn && second !in s.drawn && first != second
    requires var used := Digest(s.handlers[h].token); used in s.tokens ==> !s.tokens[used].Live()
    ensures var family := s.handlers[h].current.family;
      Do(s, Advance(h, first, second)).handlers[h] == Revoking(family, Rejected(ReusedToken(family)))
  {
  }

  /**
   A handler that loses the rotation race answers with an error, and by the
   time it does the presented token's whole family is revoked, the winner's
   successor with it.
  */
  lemma LoserRevokes(s: State, h: nat, first: Secret, second: Secret, actions: seq<Action>)
    requires Reachable(s) && h in s.handlers && s.handlers[h].Rotating?
    requires first !in s.drawn && second !in s.drawn && first != second
    requires var used := Digest(s.handlers[h].token); used in s.tokens ==> !s.tokens[used].Live()
    ensures Digest(s.handlers[h].token) in s.tokens
    ensures var family := s.tokens[Digest(s.handlers[h].token)].family;
      Ending(Run(Do(s, Advance(h, first, second)), actions), h, family, Rejected(ReusedToken(family)))
  {
    hide Inv;
    ReachableInv(s);
    LoserMoves(s, h, first, second);
    hide Do;
    TokenFamily(s, h, s.handlers[h].token, s.handlers[h].current);
    var family := s.handlers[h].current.family;
    RevokingEnds(s, Advance(h, first, second), actions, h, family, Rejected(ReusedToken(family)));
  }

  lemma ReuseMoves(s: State, h: nat, first: Secret, second: Secret)
    requires h in s.handlers && s.handlers[h].Resolving?
    requires first !in s.drawn && second !in s.drawn && first != second
    requires s.handlers[h].current.lastUsedAt.Some? && s.handlers[h].current.revokedAt.None?
    requires s.handlers[h].current.userID in s.people.users
    ensures var family := s.handlers[h].current.family;
      Do(s, Advance(h, first, second)).handlers[h] == Revoking(family, Rejected(ReusedToken(family)))
  {
  }

  /** A handler that read a token already used does the same. */
  lemma ReuseRevokes(s: State, h: nat, first: Secret, second: Secret, actions: seq<Action>)
    requires Reachable(s) && h in s.handlers && s.handlers[h].Resolving?
    requires first !in s.drawn && second !in s.drawn && first != second
    requires s.handlers[h].current.lastUsedAt.Some? && s.handlers[h].current.revokedAt.None?
    requires s.handlers[h].current.userID in s.people.users
    ensures Digest(s.handlers[h].token) in s.tokens
    ensures var family := s.tokens[Digest(s.handlers[h].token)].family;
      Ending(Run(Do(s, Advance(h, first, second)), actions), h, family, Rejected(ReusedToken(family)))
  {
    hide Inv;
    ReachableInv(s);
    ReuseMoves(s, h, first, second);
    hide Do;
    TokenFamily(s, h, s.handlers[h].token, s.handlers[h].current);
    var family := s.handlers[h].current.family;
    RevokingEnds(s, Advance(h, first, second), actions, h, family, Rejected(ReusedToken(family)));
  }

  // ---- replayed codes ----

  lemma MarkerFamily(s: State, k: Digest)
    requires Markers(s) && k in s.redeemed
    ensures k in s.hist.started && s.hist.started[k] == s.redeemed[k].value
    ensures s.hist.started[k] in s.hist.families
  {
  }

  /** A code presented while its redeemed marker is in the cache: the marker is taken, the family will be revoked. */
  lemma ReplayRevokes(s: State, h: nat, form: RedeemForm, actions: seq<Action>)
    requires Reachable(s) && h !in s.handlers && form.code.Some?
    requires Hit(s.redeemed, Digest(form.code.value), s.now)
    ensures Digest(form.code.value) in s.hist.started
    ensures var family := s.hist.started[Digest(form.code.value)];
      Ending(Run(Do(s, Begin(h, Redeem(form))), actions), h, family, Rejected(ReplayedCode(family)))
  {
    hide Markers, HandlersOk, HandlerOk, CodesOk, FamiliesOk, RowsOk, MintedOk, ReplaysOk;
    ReachableInv(s);
    MarkerFamily(s, Digest(form.code.value));
    hide Inv;
    var family := s.hist.started[Digest(form.code.value)];
    RevokingEnds(s, Begin(h, Redeem(form)), actions, h, family, Rejected(ReplayedCode(family)));
  }

  lemma MarkerAccounted(s: State, k: Digest)
    requires Markers(s) && ReplaysOk(s.hist.replays, s.handlers) && HandlersOk(s)
    requires k in s.hist.marked && s.now <= s.hist.marked[k] + REDEEMED_TTL
    ensures k in s.hist.started
    ensures var family := s.hist.started[k];
      || (Hit(s.redeemed, k, s.now) && s.redeemed[k].value == family)
      || (family in s.hist.replays && Ending(s, s.hist.replays[family], family, Rejected(ReplayedCode(family))))
  {
    var family := s.hist.started[k];
    if k !in s.redeemed {
      var h := s.hist.replays[family];
      assert HandlerOk(s, h, s.handlers[h]);
    }
  }

  /**
   Within REDEEMED_TTL of a redemption, the code's marker is still there for a
   replay to take, or a replay took it and has revoked the family or is about to.
  */
  lemma ReplayIsSeen(s: State, k: Digest)
    requires Reachable(s) && k in s.hist.marked && s.now <= s.hist.marked[k] + REDEEMED_TTL
    ensures k in s.hist.started
    ensures var family := s.hist.started[k];
      || (Hit(s.redeemed, k, s.now) && s.redeemed[k].value == family)
      || (family in s.hist.replays && Ending(s, s.hist.replays[family], family, Rejected(ReplayedCode(family))))
  {
    hide Markers, ReplaysOk, HandlersOk, Ending;
    ReachableInv(s);
    MarkerAccounted(s, k);
  }

  /** h presents a code that another handler took: it will find it gone, or has. */
  ghost predicate TooLate(s: State, h: nat, k: Digest) {
    && k in s.hist.consumed && s.hist.consumed[k] != h
    && h in s.handlers
    && ((s.handlers[h].Taking? && Digest(s.handlers[h].code) == k) || s.handlers[h] == Done(Rejected(UnknownCode)))
  }

  lemma TooLateStep(s: State, a: Action, h: nat, k: Digest)
    requires Inv(s) && TooLate(s, h, k)
    ensures TooLate(Do(s, a), h, k)
  {
    hide Inv, Do;
    DoKeeps(s, a);
    hide Grows;
    ConsumedStays(s, Do(s, a), k);
    if a.Advance? && a.h == h {
      TooLateMoves(s, a.first, a.second, h, k);
    } else {
      Bystander(s, a, h);
    }
  }

  lemma ConsumedStays(s: State, t: State, k: Digest)
    requires Inv(s) && Grows(s, t) && k in s.hist.consumed
    ensures k in t.hist.consumed && t.hist.consumed[k] == s.hist.consumed[k]
    ensures k !in s.codes
  {
    hide HandlersOk, CodesOk, FamiliesOk, RowsOk, MintedOk, Markers;
  }

  lemma TooLateMoves(s: State, first: Secret, second: Secret, h: nat, k: Digest)
    requires TooLate(s, h, k) && k !in s.codes
    ensures var t := Do(s, Advance(h, first, second));
      h in t.handlers && (t.handlers[h] == s.handlers[h] || t.handlers[h] == Done(Rejected(UnknownCode)))
  {
  }

  lemma {:induction false} TooLateRun(s: State, actions: seq<Action>, h: nat, k: Digest)
    requires Inv(s) && TooLate(s, h, k)
    ensures TooLate(Run(s, actions), h, k) && Inv(Run(s, actions))
    decreases |actions|
  {
    hide Inv, TooLate, Do, Grows;
    if actions != [] {
      DoKeeps(s, actions[0]);
      TooLateStep(s, actions[0], h, k);
      TooLateRun(Do(s, actions[0]), actions[1..], h, k);
    }
  }

  lemma TooLateBegins(s: State, h: nat, form: RedeemForm)
    requires KeysOk(s.hist, s.handlers) && h !in s.handlers && form.code.Some?
    requires Digest(form.code.value) in s.hist.consumed
    requires !Hit(s.redeemed, Digest(form.code.value), s.now)
    ensures TooLate(Do(s, Begin(h, Redeem(form))), h, Digest(form.code.value))
  {
  }

  /** A presentation of a code already taken, whose marker is gone, never signs anything. */
  lemma SecondPresentationMintsNothing(s: State, h: nat, form: RedeemForm, actions: seq<Action>)
    requires Reachable(s) && h !in s.handlers && form.code.Some?
    requires Digest(form.code.value) in s.hist.consumed
    requires !Hit(s.redeemed, Digest(form.code.value), s.now)
    ensures h !in Run(Do(s, Begin(h, Redeem(form))), actions).hist.minted
  {
    var k := Digest(form.code.value);
    var t := Do(s, Begin(h, Redeem(form)));
    hide Markers, ReplaysOk, HandlersOk, CodesOk, FamiliesOk, RowsOk, MintedOk, KeysOk, TooLate, Do, Grows;
    ReachableInv(s);
    TooLateBegins(s, h, form);
    hide Inv;
    DoKeeps(s, Begin(h, Redeem(form)));
    TooLateRun(t, actions, h, k);
    TooLateSignsNothing(Run(t, actions), h, k);
  }

  lemma TooLateSignsNothing(s: State, h: nat, k: Digest)
    requires Inv(s) && TooLate(s, h, k)
    ensures h !in s.hist.minted
  {
    assert HandlerOk(s, h, s.handlers[h]);
  }

  lemma EndingSignsNothing(s: State, h: nat, family: Secret, next: Outcome)
    requires Inv(s) && Ending(s, h, family, next) && !next.Issued?
    ensures h !in s.hist.minted
  {
    assert HandlerOk(s, h, s.handlers[h]);
  }

  lemma MarkedIsConsumed(s: State, k: Digest)
    requires Markers(s) && k in s.hist.marked
    ensures k in s.hist.consumed && k in s.hist.started && s.hist.started[k] in s.hist.families
  {
  }

  /**
   Presenting a code again within REDEEMED_TTL of its redemption signs nothing,
   and the family it started is revoked, by this handler or by the earlier
   replay that took the marker, as soon as that one answers.
  */
  lemma ReplayWithinTTL(s: State, h: nat, form: RedeemForm, actions: seq<Action>)
    requires Reachable(s) && h !in s.handlers && form.code.Some?
    requires var k := Digest(form.code.value); k in s.hist.marked && s.now <= s.hist.marked[k] + REDEEMED_TTL
    ensures Digest(form.code.value) in s.hist.started
    ensures var t := Run(Do(s, Begin(h, Redeem(form))), actions);
      var family := s.hist.started[Digest(form.code.value)];
      h !in t.hist.minted && exists g :: Ending(t, g, family, Rejected(ReplayedCode(family)))
  {
    hide Markers, ReplaysOk, HandlersOk, CodesOk, FamiliesOk, RowsOk, MintedOk, Ending, Do, Run, Grows;
    var k, begin := Digest(form.code.value), Begin(h, Redeem(form));
    ReachableInv(s);
    ReplayIsSeen(s, k);
    MarkedIsConsumed(s, k);
    hide Inv;
    var family := s.hist.started[k];
    var t := Run(Do(s, begin), actions);
    if Hit(s.redeemed, k, s.now) {
      ReplayRevokes(s, h, form, actions);
      DoKeeps(s, begin);
      RunKeeps(Do(s, begin), actions);
      EndingSignsNothing(t, h, family, Rejected(ReplayedCode(family)));
    } else {
      var g := s.hist.replays[family];
      EndingStep(s, begin, g, family, Rejected(ReplayedCode(family)));
      DoKeeps(s, begin);
      EndingRun(Do(s, begin), actions, g, family, Rejected(ReplayedCode(family)));
      SecondPresentationMintsNothing(s, h, form, actions);
    }
  }

  // ---- a failed redemption spends the code ----

  ghost predicate Spent(s: State, k: Digest) {
    && k in s.hist.consumed && k !in s.hist.started
    && s.hist.consumed[k] in s.handlers
    && s.handlers[s.hist.consumed[k]].Done?
  }

  lemma Unstarted(s: State, k: Digest)
    requires Markers(s) && CacheOk(s.codes, s.hist.codes, s.hist.consumed) && k in s.codes
    ensures k !in s.hist.started
  {
  }

  lemma FailedCheckMoves(s: State, h: nat, first: Secret, second: Secret)
    requires h in s.handlers && s.handlers[h].Taking?
    requires first !in s.drawn && second !in s.drawn && first != second
    requires var k := Digest(s.handlers[h].code);
      && Hit(s.codes, k, s.now) && CheckCode(s.env, s.handlers[h].form, s.codes[k].value.pending).Some?
      && k !in s.hist.started
    ensures Spent(Do(s, Advance(h, first, second)), Digest(s.handlers[h].code))
  {
  }

  lemma SpentStep(s: State, a: Action, k: Digest)
    requires Inv(s) && Spent(s, k)
    ensures Spent(Do(s, a), k)
  {
    hide Inv, Do;
    DoKeeps(s, a);
    ConsumedStays(s, Do(s, a), k);
    hide Grows;
    var h := s.hist.consumed[k];
    if a.Advance? && a.h == h {
      DoneStays(s, h, a.first, a.second);
    } else {
      Bystander(s, a, h);
      OnlyTheTakerStarts(s, a, k);
    }
  }

  lemma DoneStays(s: State, h: nat, first: Secret, second: Secret)
    requires h in s.handlers && s.handlers[h].Done?
    ensures Do(s, Advance(h, first, second)) == s
  {
  }

  /** A handler's first operation writes its place, and a replay takes a marker; nothing else changes. */
  lemma BeginWrites(s: State, h: nat, call: Call)
    ensures var t := DoBegin(s, h, call);
      t == s.(handlers := t.handlers, redeemed := t.redeemed, hist := s.hist.(replays := t.hist.replays))
  {
    if call.Redeem? && call.form.code.Some? && Hit(s.redeemed, Digest(call.form.code.value), s.now) {
      ReplayWrites(s, h, Digest(call.form.code.value));
    }
    hide ViewPc, DecidePc, RefreshPc, RevokePc, Replay, Hit;
  }

  lemma ReplayWrites(s: State, h: nat, k: Digest)
    requires k in s.redeemed
    ensures var t := Replay(s, h, k);
      t == s.(handlers := t.handlers, redeemed := t.redeemed, hist := s.hist.(replays := t.hist.replays))
  {
  }

  lemma AdvanceStarts(s: State, h: nat, first: Secret, second: Secret, k: Digest)
    requires h in s.handlers && k !in s.hist.started
    requires s.handlers[h].Starting? ==> Digest(s.handlers[h].code) != k
    ensures k !in DoAdvance(s, h, first, second).hist.started
  {
    if s.handlers[h].Starting? {
    } else if BeforeCode(s.handlers[h]) {
      EarlyQuiet(s, h, first, second);
    } else {
      LateStarts(s, h, first, second);
    }
    hide Bind, Consume, Record, IssueCode, TakeCode, MarkRedeemed, Rotate, FinishRevoking;
  }

  /** Handlers of the consent endpoints, and one about to take a code. */
  predicate BeforeCode(pc: Handler) {
    pc.Viewing? || pc.Consuming? || pc.Recording? || pc.Coding? || pc.Taking?
  }

  ghost predicate Quiet(s: State, t: State, h: nat) {
    && t.grantable == s.grantable && t.hist.started == s.hist.started && t.hist.minted == s.hist.minted
    && h in t.handlers && !t.handlers[h].Rotating?
  }

  lemma EarlyQuiet(s: State, h: nat, first: Secret, second: Secret)
    requires h in s.handlers && BeforeCode(s.handlers[h])
    ensures Quiet(s, DoAdvance(s, h, first, second), h)
  {
    if s.handlers[h].Viewing? || s.handlers[h].Consuming? {
      ConsentQuiet(s, h, first, second);
    } else {
      CodeQuiet(s, h, first, second);
    }
    hide DoAdvance;
  }

  lemma ConsentQuiet(s: State, h: nat, first: Secret, second: Secret)
    requires h in s.handlers && (s.handlers[h].Viewing? || s.handlers[h].Consuming?)
    ensures Quiet(s, DoAdvance(s, h, first, second), h)
  {
  }

  lemma CodeQuiet(s: State, h: nat, first: Secret, second: Secret)
    requires h in s.handlers && (s.handlers[h].Recording? || s.handlers[h].Coding? || s.handlers[h].Taking?)
    ensures Quiet(s, DoAdvance(s, h, first, second), h)
  {
  }

  lemma LateStarts(s: State, h: nat, first: Secret, second: Secret)
    requires h in s.handlers && !BeforeCode(s.handlers[h]) && !s.handlers[h].Starting?
    ensures DoAdvance(s, h, first, second).hist.started == s.hist.started
  {
    if s.handlers[h].Resolving? || s.handlers[h].Rotating? {
      RefreshStarts(s, h, first, second);
    } else {
      RestStarts(s, h, first, second);
    }
    hide DoAdvance;
  }

  lemma RefreshStarts(s: State, h: nat, first: Secret, second: Secret)
    requires h in s.handlers && (s.handlers[h].Resolving? || s.handlers[h].Rotating?)
    ensures DoAdvance(s, h, first, second).hist.started == s.hist.started
  {
    hide ResolvePc, RotateRow;
  }

  lemma RestStarts(s: State, h: nat, first: Secret, second: Secret)
    requires h in s.handlers && (s.handlers[h].Marking? || s.handlers[h].Revoking? || s.handlers[h].Done?)
    ensures DoAdvance(s, h, first, second).hist.started == s.hist.started
  {
    hide RevokeRows;
  }

  lemma StartingOwns(s: State, h: nat)
    requires HandlersOk(s) && h in s.handlers && s.handlers[h].Starting?
    ensures Digest(s.handlers[h].code) in s.hist.consumed && s.hist.consumed[Digest(s.handlers[h].code)] == h
  {
    assert HandlerOk(s, h, s.handlers[h]);
  }

  lemma OnlyTheTakerStarts(s: State, a: Action, k: Digest)
    requires Inv(s) && k in s.hist.consumed && k !in s.hist.started
    requires !(a.Advance? && a.h == s.hist.consumed[k])
    ensures k !in Do(s, a).hist.started
  {
    hide Facts, HandlersOk, KeysOk, ReplaysOk, MarkersOk, CacheOk, PendingsOk, PeopleOk, OneLive, DoBegin, DoAdvance;
    match a
    case Begin(h, call) => BeginWrites(s, h, call);
    case Advance(h, first, second) =>
      if h in s.handlers {
        if s.handlers[h].Starting? {
          StartingOwns(s, h);
        }
        AdvanceStarts(s, h, first, second, k);
      }
    case _ =>
  }

  lemma {:induction false} SpentRun(s: State, actions: seq<Action>, k: Digest)
    requires Inv(s) && Spent(s, k)
    ensures Spent(Run(s, actions), k) && Inv(Run(s, actions))
    decreases |actions|
  {
    hide Inv, Spent, Do, Grows;
    if actions != [] {
      DoKeeps(s, actions[0]);
      SpentStep(s, actions[0], k);
      SpentRun(Do(s, actions[0]), actions[1..], k);
    }
  }

  /** A redemption that fails its checks consumes the code: it is out of the cache and never starts a family. */
  lemma FailedRedemptionSpends(s: State, h: nat, first: Secret, second: Secret, actions: seq<Action>)
    requires Reachable(s) && h in s.handlers && s.handlers[h].Taking?
    requires first !in s.drawn && second !in s.drawn && first != second
    requires var k := Digest(s.handlers[h].code);
      Hit(s.codes, k, s.now) && CheckCode(s.env, s.handlers[h].form, s.codes[k].value.pending).Some?
    ensures var t := Run(Do(s, Advance(h, first, second)), actions);
      var k := Digest(s.handlers[h].code);
      k !in t.codes && k !in t.hist.started && forall f | f in t.hist.families :: t.hist.families[f].code != k
  {
    var k := Digest(s.handlers[h].code);
    hide Markers, CacheOk, ReplaysOk, HandlersOk, CodesOk, FamiliesOk, RowsOk, MintedOk, KeysOk, Spent, Do, Grows;
    ReachableInv(s);
    Unstarted(s, k);
    hide Inv;
    FailedCheckMoves(s, h, first, second);
    DoKeeps(s, Advance(h, first, second));
    SpentRun(Do(s, Advance(h, first, second)), actions, k);
    SpentMeans(Run(Do(s, Advance(h, first, second)), actions), k);
  }

  lemma SpentMeans(s: State, k: Digest)
    requires Inv(s) && Spent(s, k)
    ensures k !in s.codes && k !in s.hist.started && forall f | f in s.hist.families :: s.hist.families[f].code != k
  {
    forall f | f in s.hist.families ensures s.hist.families[f].code != k {
      assert FamilyOk(s, f);
    }
    hide HandlersOk, RowsOk, MintedOk;
  }

  // ---- scopes that stop being grantable ----

  /** No rotation about to happen would sign sc. */
  ghost predicate Withdrawn(s: State, sc: string) {
    && sc !in s.grantable
    && (forall h | h in s.handlers && s.handlers[h].Rotating? :: sc !in s.handlers[h].scopes)
  }

  /** a does not make sc grantable again. */
  predicate Withholds(a: Action, sc: string) {
    a.Reconfigure? ==> sc !in a.scopeMap
  }

  /** What t signed since s by refreshing does not hold sc. */
  ghost predicate NotSigned(s: State, t: State, sc: string) {
    forall h | h in t.hist.minted && h !in s.hist.minted && t.hist.minted[h].refreshed :: sc !in t.hist.minted[h].scopes
  }

  /** The handler h moved from s to t without coming to hold sc, and signed no sc. */
  ghost predicate Abstains(s: State, t: State, h: nat, sc: string) {
    && h in t.handlers
    && (t.handlers[h].Rotating? ==> sc !in t.handlers[h].scopes)
    && t.hist.minted.Keys <= s.hist.minted.Keys + {h}
    && (h in t.hist.minted && h !in s.hist.minted && t.hist.minted[h].refreshed ==> sc !in t.hist.minted[h].scopes)
    && t.grantable == s.grantable
  }

  lemma BeginAbstains(s: State, h: nat, call: Call, sc: string)
    ensures Abstains(s, DoBegin(s, h, call), h, sc)
  {
    PcsQuiet(s, h, call);
    BeginWrites(s, h, call);
    hide DoBegin;
  }

  lemma PcsQuiet(s: State, h: nat, call: Call)
    ensures !DoBegin(s, h, call).handlers[h].Rotating?
  {
  }

  lemma LateAbstains(s: State, h: nat, first: Secret, second: Secret, sc: string)
    requires h in s.handlers && Withdrawn(s, sc) && sc != PUBLIC_READ
    requires s.handlers[h].Resolving? || s.handlers[h].Rotating?
    ensures Abstains(s, DoAdvance(s, h, first, second), h, sc)
  {
  }

  lemma RestAbstains(s: State, h: nat, first: Secret, second: Secret, sc: string)
    requires h in s.handlers && (s.handlers[h].Starting? || s.handlers[h].Marking?)
    ensures Abstains(s, DoAdvance(s, h, first, second), h, sc)
  {
  }

  lemma LastAbstains(s: State, h: nat, first: Secret, second: Secret, sc: string)
    requires h in s.handlers && (s.handlers[h].Revoking? || s.handlers[h].Done?)
    ensures Abstains(s, DoAdvance(s, h, first, second), h, sc)
  {
  }

  lemma AdvanceAbstains(s: State, h: nat, first: Secret, second: Secret, sc: string)
    requires h in s.handlers && Withdrawn(s, sc) && sc != PUBLIC_READ
    ensures Abstains(s, DoAdvance(s, h, first, second), h, sc)
  {
    if BeforeCode(s.handlers[h]) {
      EarlyQuiet(s, h, first, second);
    } else if s.handlers[h].Resolving? || s.handlers[h].Rotating? {
      LateAbstains(s, h, first, second, sc);
    } else if s.handlers[h].Starting? || s.handlers[h].Marking? {
      RestAbstains(s, h, first, second, sc);
    } else {
      LastAbstains(s, h, first, second, sc);
    }
    hide DoAdvance;
  }

  lemma WithdrawnStep(s: State, a: Action, sc: string)
    requires Withdrawn(s, sc) && Withholds(a, sc) && sc != PUBLIC_READ
    ensures Withdrawn(Do(s, a), sc) && NotSigned(s, Do(s, a), sc)
  {
    hide DoBegin, DoAdvance;
    match a
    case Begin(h, call) => BeginAbstains(s, h, call, sc);
    case Advance(h, first, second) =>
      if h in s.handlers {
        AdvanceAbstains(s, h, first, second, sc);
      }
    case _ =>
  }

  lemma {:induction false} WithdrawnRun(s: State, actions: seq<Action>, sc: string)
    requires Inv(s) && Withdrawn(s, sc) && sc != PUBLIC_READ
    requires forall i | 0 <= i < |actions| :: Withholds(actions[i], sc)
    ensures NotSigned(s, Run(s, actions), sc)
    decreases |actions|
  {
    hide Inv, Withdrawn, Do, Grows;
    if actions != [] {
      DoKeeps(s, actions[0]);
      WithdrawnStep(s, actions[0], sc);
      WithdrawnRun(Do(s, actions[0]), actions[1..], sc);
      RunKeeps(Do(s, actions[0]), actions[1..]);
      NotSignedThrough(s, Do(s, actions[0]), Run(s, actions), sc);
    }
  }

  lemma NotSignedThrough(s: State, t: State, u: State, sc: string)
    requires NotSigned(s, t, sc) && NotSigned(t, u, sc) && Grows(t, u)
    ensures NotSigned(s, u, sc)
  {
  }

  /**
   Once a scope leaves the grantable set, and the rotations that had already
   read the set are through, no refresh signs it until it is grantable again.
  */
  lemma WithdrawnScopeIsNotRefreshed(s: State, actions: seq<Action>, sc: string)
    requires Reachable(s) && Withdrawn(s, sc) && sc != PUBLIC_READ
    requires forall i | 0 <= i < |actions| :: Withholds(actions[i], sc)
    ensures NotSigned(s, Run(s, actions), sc)
  {
    ReachableInv(s);
    WithdrawnRun(s, actions, sc);
  }
}
