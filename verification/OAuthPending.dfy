/**
 Pending requests: who decides one, how often, and until when
 (internal/oauth/consent.go).

 getAuthorization reads the request and then writes it back bound to the
 session. With the two taken as one step every request is decided at most once,
 by the session that first read it. As the two operations they are, that holds
 exactly as long as no write comes too late; `Fits` says which ones do not.
*/
module OAuthPending {
  import opened Wrappers
  import opened Scopes
  import opened OAuthState
  import opened OAuthMachine
  import opened OAuthInvariant
  import opened OAuthTheorems

  function SessionOf(bound: map<Secret, string>, id: Secret): string {
    if id in bound then bound[id] else ""
  }

  predicate IsDecided(decisions: map<nat, Decision>, id: Secret) {
    exists h :: h in decisions && decisions[h].id == id
  }

  /** A cached request is undecided, bound as it first was, and keeps the first deadline. */
  ghost predicate CachedOnce(
    pendings: map<Secret, Entry<Pending>>, requests: map<Secret, Request>, bound: map<Secret, string>,
    decisions: map<nat, Decision>)
  {
    forall id | id in pendings ::
      && !IsDecided(decisions, id)
      && id in requests
      && pendings[id].value.session == SessionOf(bound, id)
      && pendings[id].expires == Some(requests[id].deadline)
  }

  /** A decision is the only one on its request, by the session bound to it, before the deadline. */
  ghost predicate DecidedOnce(requests: map<Secret, Request>, bound: map<Secret, string>, decisions: map<nat, Decision>) {
    && (forall h, g | h in decisions && g in decisions && decisions[h].id == decisions[g].id :: h == g)
    && (forall h | h in decisions ::
          && decisions[h].id in requests && decisions[h].at <= requests[decisions[h].id].deadline
          && decisions[h].id in bound && decisions[h].principal.session == bound[decisions[h].id])
  }

  /** No request is lost: it is cached until it is decided. */
  ghost predicate Kept(
    pendings: map<Secret, Entry<Pending>>, requests: map<Secret, Request>, decisions: map<nat, Decision>)
  {
    forall id | id in requests :: id in pendings || IsDecided(decisions, id)
  }

  ghost predicate Consumers(bound: map<Secret, string>, handlers: map<nat, Handler>) {
    forall h | h in handlers && handlers[h].Consuming? ::
      handlers[h].id in bound && bound[handlers[h].id] == handlers[h].principal.session
  }

  ghost predicate BoundOk(requests: map<Secret, Request>, bound: map<Secret, string>) {
    forall id | id in bound :: id in requests && bound[id] != ""
  }

  ghost predicate Once(s: State) {
    && CachedOnce(s.pendings, s.hist.requests, s.hist.bound, s.hist.decisions)
    && DecidedOnce(s.hist.requests, s.hist.bound, s.hist.decisions)
    && Kept(s.pendings, s.hist.requests, s.hist.decisions)
    && BoundOk(s.hist.requests, s.hist.bound)
    && Consumers(s.hist.bound, s.handlers)
  }

  /** The write of a getAuthorization that read p: the request is still there, not bound to another session, not over. */
  predicate Fits(s: State, id: Secret, p: Pending) {
    && id in s.pendings
    && (SessionOf(s.hist.bound, id) == "" || SessionOf(s.hist.bound, id) == p.session)
    && s.now < p.expiresAt
  }

  /** If a is such a write, it fits. */
  ghost predicate Timely(s: State, a: Action) {
    a.Advance? && a.h in s.handlers && s.handlers[a.h].Viewing? && Do(s, a) != s ==>
      Fits(s, s.handlers[a.h].id, s.handlers[a.h].p)
  }

  // ---- steps that touch no request ----

  ghost predicate Aside(s: State, t: State, h: nat) {
    && t.now == s.now && t.pendings == s.pendings && t.hist.requests == s.hist.requests
    && t.hist.bound == s.hist.bound && t.hist.decisions == s.hist.decisions
    && h in t.handlers && t.handlers == s.handlers[h := t.handlers[h]]
  }

  lemma AsideKeeps(s: State, t: State, h: nat)
    requires Once(s) && Aside(s, t, h)
    requires t.handlers[h].Consuming? ==>
      t.handlers[h].id in t.hist.bound && t.hist.bound[t.handlers[h].id] == t.handlers[h].principal.session
    ensures Once(t)
  {
    hide CachedOnce, DecidedOnce, Kept, BoundOk;
  }

  lemma BeginAside(s: State, h: nat, call: Call)
    ensures Aside(s, DoBegin(s, h, call), h)
  {
    BeginWrites(s, h, call);
    hide DoBegin;
  }

  /** decideAuthorization only goes on for the session the request is bound to. */
  lemma BeginConsumes(s: State, h: nat, call: Call)
    requires CachedOnce(s.pendings, s.hist.requests, s.hist.bound, s.hist.decisions)
    ensures var pc := DoBegin(s, h, call).handlers[h];
      pc.Consuming? ==> pc.id in s.hist.bound && s.hist.bound[pc.id] == pc.principal.session
  {
    if call.Decide? {
      hide ViewPc, RefreshPc, RevokePc, Replay;
    } else {
      OthersConsumeNothing(s, h, call);
    }
    hide DoBegin;
  }

  lemma OnlyViewsView(s: State, h: nat, call: Call)
    requires !call.View?
    ensures !DoBegin(s, h, call).handlers[h].Viewing?
  {
  }

  lemma OthersConsumeNothing(s: State, h: nat, call: Call)
    requires !call.Decide?
    ensures !DoBegin(s, h, call).handlers[h].Consuming?
  {
  }

  predicate InConsent(pc: Handler) {
    pc.Viewing? || pc.Consuming?
  }

  lemma AdvanceAside(s: State, h: nat, first: Secret, second: Secret)
    requires h in s.handlers && !InConsent(s.handlers[h])
    ensures var t := DoAdvance(s, h, first, second); Aside(s, t, h) && !InConsent(t.handlers[h])
  {
    match s.handlers[h]
    case Done(_) =>
    case Recording(_, _) => CodingAside(s, h, first, second); hide DoAdvance;
    case Coding(_, _, _) => CodingAside(s, h, first, second); hide DoAdvance;
    case Taking(_, _) => RedeemingAside(s, h, first, second); hide DoAdvance;
    case Starting(_, _, _) => RedeemingAside(s, h, first, second); hide DoAdvance;
    case Marking(_, _, _, _) => MarkingAside(s, h, first, second); hide DoAdvance;
    case Resolving(_, _, _) => RefreshingAside(s, h, first, second); hide DoAdvance;
    case Rotating(_, _, _, _) => RefreshingAside(s, h, first, second); hide DoAdvance;
    case Revoking(_, _) => MarkingAside(s, h, first, second); hide DoAdvance;
  }

  lemma CodingAside(s: State, h: nat, first: Secret, second: Secret)
    requires h in s.handlers && (s.handlers[h].Recording? || s.handlers[h].Coding?)
    ensures var t := DoAdvance(s, h, first, second); Aside(s, t, h) && !InConsent(t.handlers[h])
  {
  }

  lemma RedeemingAside(s: State, h: nat, first: Secret, second: Secret)
    requires h in s.handlers && (s.handlers[h].Taking? || s.handlers[h].Starting?)
    ensures var t := DoAdvance(s, h, first, second); Aside(s, t, h) && !InConsent(t.handlers[h])
  {
  }

  lemma MarkingAside(s: State, h: nat, first: Secret, second: Secret)
    requires h in s.handlers && (s.handlers[h].Marking? || s.handlers[h].Revoking?)
    ensures var t := DoAdvance(s, h, first, second); Aside(s, t, h) && !InConsent(t.handlers[h])
  {
  }

  lemma RefreshingAside(s: State, h: nat, first: Secret, second: Secret)
    requires h in s.handlers && (s.handlers[h].Resolving? || s.handlers[h].Rotating?)
    ensures var t := DoAdvance(s, h, first, second); Aside(s, t, h) && !InConsent(t.handlers[h])
  {
  }

  // ---- steps that touch one ----

  lemma AuthorizeOnce(s: State, id: Secret, ask: AuthRequest)
    requires Once(s) && id !in s.hist.requests
    ensures Once(DoAuthorize(s, id, ask))
  {
    match AuthorizeScopes(s, ask)
    case None =>
    case Some(scopes) =>
      var t := DoAuthorize(s, id, ask);
      assert t.handlers == s.handlers && t.hist.bound == s.hist.bound && t.hist.decisions == s.hist.decisions;
      var r := t.hist.requests[id];
      var e := t.pendings[id];
      assert t.hist.requests == s.hist.requests[id := r] && t.pendings == s.pendings[id := e];
      hide DoAuthorize;
      RequestedOnce(s.pendings, s.hist.requests, s.hist.bound, s.hist.decisions, id, r, e);
      hide CachedOnce, DecidedOnce, Kept, BoundOk, Consumers;
  }

  lemma RequestedOnce(
    pendings: map<Secret, Entry<Pending>>, requests: map<Secret, Request>, bound: map<Secret, string>,
    decisions: map<nat, Decision>, id: Secret, r: Request, e: Entry<Pending>)
    requires CachedOnce(pendings, requests, bound, decisions) && DecidedOnce(requests, bound, decisions) && BoundOk(requests, bound)
    requires id !in requests && e.value.session == "" && e.expires == Some(r.deadline)
    ensures CachedOnce(pendings[id := e], requests[id := r], bound, decisions) && DecidedOnce(requests[id := r], bound, decisions)
    ensures BoundOk(requests[id := r], bound)
    ensures Kept(pendings, requests, decisions) ==> Kept(pendings[id := e], requests[id := r], decisions)
  {
  }

  lemma BoundOnce(
    pendings: map<Secret, Entry<Pending>>, requests: map<Secret, Request>, bound: map<Secret, string>,
    decisions: map<nat, Decision>, id: Secret, e: Entry<Pending>)
    requires CachedOnce(pendings, requests, bound, decisions) && DecidedOnce(requests, bound, decisions) && BoundOk(requests, bound)
    requires id in pendings && e.expires == Some(requests[id].deadline)
    requires SessionOf(bound, id) == "" || SessionOf(bound, id) == e.value.session
    ensures var now := FirstBound(bound, id, e.value.session);
      && CachedOnce(pendings[id := e], requests, now, decisions) && DecidedOnce(requests, now, decisions) && BoundOk(requests, now)
      && (Kept(pendings, requests, decisions) ==> Kept(pendings[id := e], requests, decisions))
  {
  }

  lemma TakenOnce(
    pendings: map<Secret, Entry<Pending>>, requests: map<Secret, Request>, bound: map<Secret, string>,
    decisions: map<nat, Decision>, h: nat, d: Decision)
    requires CachedOnce(pendings, requests, bound, decisions) && DecidedOnce(requests, bound, decisions) && BoundOk(requests, bound)
    requires d.id in pendings && pendings[d.id].Fresh(d.at) && h !in decisions
    requires d.id in bound && bound[d.id] == d.principal.session
    ensures var after := decisions[h := d];
      && CachedOnce(pendings - {d.id}, requests, bound, after) && DecidedOnce(requests, bound, after)
      && (Kept(pendings, requests, decisions) ==> Kept(pendings - {d.id}, requests, after))
  {
    var after := decisions[h := d];
    assert after[h].id == d.id;
    forall id | IsDecided(decisions, id) ensures IsDecided(after, id) {
      var g :| g in decisions && decisions[g].id == id;
      assert after[g].id == id;
    }
  }

  lemma BindWritesOne(s: State, h: nat, id: Secret, p: Pending)
    ensures var t := Bind(s, h, id, p);
      && t.pendings == s.pendings[id := NewEntry(p, s.now, p.expiresAt - s.now)]
      && t.hist.bound == FirstBound(s.hist.bound, id, p.session)
      && t.hist.requests == s.hist.requests && t.hist.decisions == s.hist.decisions
      && t.handlers == s.handlers[h := Done(Viewed)]
  {
  }

  lemma BoundConsumers(bound: map<Secret, string>, handlers: map<nat, Handler>, h: nat, id: Secret, session: string)
    requires Consumers(bound, handlers)
    ensures Consumers(FirstBound(bound, id, session), handlers[h := Done(Viewed)])
  {
  }

  lemma BindOnce(s: State, h: nat, id: Secret, p: Pending)
    requires Once(s) && Fits(s, id, p) && h in s.handlers && s.handlers[h] == Viewing(id, p)
    requires id in s.hist.requests && Matches(p, s.hist.requests[id])
    ensures Once(Bind(s, h, id, p))
  {
    hide Bind, FirstBound, CachedOnce, DecidedOnce, Kept, BoundOk, Consumers;
    BindWritesOne(s, h, id, p);
    BoundConsumers(s.hist.bound, s.handlers, h, id, p.session);
    BoundOnce(s.pendings, s.hist.requests, s.hist.bound, s.hist.decisions, id, NewEntry(p, s.now, p.expiresAt - s.now));
  }

  lemma ConsumeOnce(s: State, h: nat, id: Secret, principal: Principal, allow: bool, p: Pending)
    requires Once(s) && h in s.handlers && s.handlers[h] == Consuming(id, principal, allow, p)
    requires Hit(s.pendings, id, s.now) && h !in s.hist.decisions
    ensures Once(Consume(s, h, id, principal, allow, p))
  {
    var t := Consume(s, h, id, principal, allow, p);
    var d := Decision(id, principal, allow, p, s.now);
    assert t.pendings == s.pendings - {id} && t.hist.decisions == s.hist.decisions[h := d];
    assert t.hist.requests == s.hist.requests && t.hist.bound == s.hist.bound;
    assert t.handlers == s.handlers[h := t.handlers[h]] && !t.handlers[h].Consuming?;
    hide Consume;
    assert Consumers(t.hist.bound, t.handlers) by { hide CachedOnce, DecidedOnce, Kept, BoundOk; }
    TakenOnce(s.pendings, s.hist.requests, s.hist.bound, s.hist.decisions, h, d);
    hide CachedOnce, DecidedOnce, Kept, BoundOk, Consumers;
  }

  // ---- every timely step keeps it ----

  lemma ViewingOk(s: State, h: nat)
    requires HandlersOk(s) && h in s.handlers && s.handlers[h].Viewing?
    ensures s.handlers[h].id in s.hist.requests && Matches(s.handlers[h].p, s.hist.requests[s.handlers[h].id])
  {
    assert HandlerOk(s, h, s.handlers[h]);
  }

  lemma ConsumingOk(s: State, h: nat)
    requires HandlersOk(s) && h in s.handlers && s.handlers[h].Consuming?
    ensures h !in s.hist.decisions
  {
    assert HandlerOk(s, h, s.handlers[h]);
  }

  lemma ConsentOnce(s: State, h: nat, first: Secret, second: Secret)
    requires HandlersOk(s) && Once(s) && h in s.handlers && InConsent(s.handlers[h])
    requires s.handlers[h].Viewing? ==> Fits(s, s.handlers[h].id, s.handlers[h].p)
    ensures Once(DoAdvance(s, h, first, second))
  {
    hide HandlersOk, Once, Fits, Bind, Consume, Aside;
    match s.handlers[h]
    case Viewing(id, p) =>
      ViewingOk(s, h);
      BindOnce(s, h, id, p);
    case Consuming(id, principal, allow, p) =>
      if Hit(s.pendings, id, s.now) {
        ConsumingOk(s, h);
        ConsumeOnce(s, h, id, principal, allow, p);
      } else {
        MissOnce(s, h);
      }
  }

  lemma MissOnce(s: State, h: nat)
    requires Once(s) && h in s.handlers
    ensures Once(At(s, h, Done(NotFound)))
  {
    AsideKeeps(s, At(s, h, Done(NotFound)), h);
    hide Once;
  }

  lemma RequestsDrawn(s: State)
    requires Inv(s)
    ensures s.hist.requests.Keys <= s.drawn
  {
    forall id | id in s.hist.requests ensures id in s.drawn {
      assert RequestOk(s, id);
    }
  }

  lemma DoOnce(s: State, a: Action)
    requires Inv(s) && Once(s) && Timely(s, a)
    ensures Once(Do(s, a))
  {
    if Do(s, a) != s {
      match a
      case Tick(_) => hide Inv, CachedOnce, DecidedOnce, Kept, BoundOk, Consumers;
      case Reconfigure(_) => hide Inv, CachedOnce, DecidedOnce, Kept, BoundOk, Consumers;
      case Authorize(id, ask) =>
        RequestsDrawn(s);
        AuthorizeOnce(s, id, ask);
        hide Inv, Once, DoAuthorize;
      case Begin(h, call) =>
        hide Inv, DoBegin;
        BeginAside(s, h, call);
        BeginConsumes(s, h, call);
        AsideKeeps(s, DoBegin(s, h, call), h);
        hide Once;
      case Advance(h, first, second) =>
        assert HandlersOk(s);
        hide Inv, HandlersOk, Once, DoAdvance, Fits;
        if InConsent(s.handlers[h]) {
          ConsentOnce(s, h, first, second);
        } else {
          AdvanceAside(s, h, first, second);
          AsideKeeps(s, DoAdvance(s, h, first, second), h);
        }
    }
  }

  /**
   A getAuthorization's write keeps requests decided once, each by the session
   first bound to it and by its first deadline, exactly when it fits.
  */
  lemma BindFitsIffOnce(s: State, h: nat)
    requires Inv(s) && Once(s) && h in s.handlers && s.handlers[h].Viewing?
    ensures var id := s.handlers[h].id;
      var p := s.handlers[h].p;
      Once(Bind(s, h, id, p)) <==> Fits(s, id, p)
  {
    var id, p := s.handlers[h].id, s.handlers[h].p;
    ViewingOk(s, h);
    hide Inv;
    if Fits(s, id, p) {
      hide Bind, Once, Fits;
      BindOnce(s, h, id, p);
    } else {
      hide DecidedOnce, BoundOk, Consumers;
      LateBindBreaks(s, h, id, p);
      hide Bind, Fits, Kept;
    }
  }

  lemma LateBindBreaks(s: State, h: nat, id: Secret, p: Pending)
    requires CachedOnce(s.pendings, s.hist.requests, s.hist.bound, s.hist.decisions)
    requires Kept(s.pendings, s.hist.requests, s.hist.decisions)
    requires id in s.hist.requests && !Fits(s, id, p)
    ensures var t := Bind(s, h, id, p); !CachedOnce(t.pendings, t.hist.requests, t.hist.bound, t.hist.decisions)
  {
    var t := Bind(s, h, id, p);
    assert id in t.pendings && t.hist.decisions == s.hist.decisions;
  }

  // ---- runs ----

  ghost predicate TimelyRun(s: State, actions: seq<Action>)
    decreases |actions|
  {
    actions == [] || (Timely(s, actions[0]) && TimelyRun(Do(s, actions[0]), actions[1..]))
  }

  lemma {:induction false} RunOnce(s: State, actions: seq<Action>)
    requires Inv(s) && Once(s) && TimelyRun(s, actions)
    ensures Once(Run(s, actions))
    decreases |actions|
  {
    hide Inv, Once, Timely, Do, Grows;
    if actions != [] {
      DoKeeps(s, actions[0]);
      DoOnce(s, actions[0]);
      RunOnce(Do(s, actions[0]), actions[1..]);
    }
  }

  lemma InitialOnce(env: Env)
    ensures Once(Initial(env))
  {
  }

  /** In a run whose writes all fit, nobody decides a request twice, late, or for another session. */
  lemma TimelyRunsDecideOnce(env: Env, actions: seq<Action>, h: nat, g: nat)
    requires TimelyRun(Initial(env), actions)
    ensures var s := Run(Initial(env), actions);
      h in s.hist.decisions ==> DecidedWell(s, s.hist.decisions[h])
    ensures var s := Run(Initial(env), actions);
      h in s.hist.decisions && g in s.hist.decisions && s.hist.decisions[h].id == s.hist.decisions[g].id ==> h == g
  {
    InitialInv(env);
    InitialOnce(env);
    RunOnce(Initial(env), actions);
    hide CachedOnce, Kept, BoundOk, Consumers, TimelyRun, Run;
  }

  /** By the session the request was first bound to, before its first deadline. */
  ghost predicate DecidedWell(s: State, d: Decision) {
    && d.id in s.hist.requests && d.at <= s.hist.requests[d.id].deadline
    && d.id in s.hist.bound && s.hist.bound[d.id] == d.principal.session
  }

  // ---- getAuthorization as one step ----

  datatype Turn =
    | Step(a: Action)
    | GetAuthorization(h: nat, id: Secret, principal: Principal, first: Secret, second: Secret)

  function Play(s: State, turn: Turn): State {
    match turn
    case Step(a) => if a.Begin? && a.call.View? then s else Do(s, a)
    case GetAuthorization(h, id, principal, first, second) =>
      if h in s.handlers || first in s.drawn || second in s.drawn || first == second then s
      else Do(Do(s, Begin(h, View(id, principal))), Advance(h, first, second))
  }

  function PlayAll(s: State, turns: seq<Turn>): State
    decreases |turns|
  {
    if turns == [] then s else PlayAll(Play(s, turns[0]), turns[1..])
  }

  ghost predicate NoneViewing(s: State) {
    forall h | h in s.handlers :: !s.handlers[h].Viewing?
  }

  /** A read followed at once by its write always fits. */
  lemma ViewFits(s: State, h: nat, id: Secret, principal: Principal)
    requires CachedOnce(s.pendings, s.hist.requests, s.hist.bound, s.hist.decisions) && h !in s.handlers
    ensures var t := DoBegin(s, h, View(id, principal));
      t.handlers[h].Viewing? ==> Fits(t, t.handlers[h].id, t.handlers[h].p)
  {
    hide DecidePc, RefreshPc, RevokePc, Replay;
  }

  lemma StepsView(s: State, h: nat, first: Secret, second: Secret)
    requires h in s.handlers
    ensures !DoAdvance(s, h, first, second).handlers[h].Viewing?
  {
    if InConsent(s.handlers[h]) {
      hide RefreshPc, RevokePc;
    } else {
      AdvanceAside(s, h, first, second);
      hide DoAdvance;
    }
  }

  lemma StepViewsNone(s: State, a: Action)
    requires NoneViewing(s) && !(a.Begin? && a.call.View?)
    ensures NoneViewing(Do(s, a))
  {
    hide DoBegin, DoAdvance;
    match a
    case Begin(h, call) => OnlyViewsView(s, h, call);
    case Advance(h, first, second) =>
      if h in s.handlers {
        StepsView(s, h, first, second);
      }
    case _ =>
  }

  /** Nobody but h is about to write. */
  ghost predicate OnlyViewing(s: State, h: nat) {
    h in s.handlers && forall g | g in s.handlers && g != h :: !s.handlers[g].Viewing?
  }

  lemma ReadStep(s: State, h: nat, id: Secret, principal: Principal)
    requires Inv(s) && Once(s) && NoneViewing(s) && h !in s.handlers
    ensures var mid := Do(s, Begin(h, View(id, principal)));
      && Inv(mid) && Once(mid) && OnlyViewing(mid, h) && mid.drawn == s.drawn
      && (mid.handlers[h].Viewing? ==> Fits(mid, mid.handlers[h].id, mid.handlers[h].p))
  {
    hide Inv, Once, Fits, DoBegin, DoAuthorize, DoAdvance, Timely;
    var begin := Begin(h, View(id, principal));
    BeginTimely(s, h, View(id, principal));
    DoKeepsInv(s, begin);
    DoOnce(s, begin);
    ViewFitsOnce(s, h, id, principal);
    ReadMoves(s, h, id, principal);
  }

  lemma BeginTimely(s: State, h: nat, call: Call)
    ensures Timely(s, Begin(h, call))
  {
    hide Do;
  }

  lemma ViewFitsOnce(s: State, h: nat, id: Secret, principal: Principal)
    requires Once(s) && h !in s.handlers
    ensures var t := DoBegin(s, h, View(id, principal));
      t.handlers[h].Viewing? ==> Fits(t, t.handlers[h].id, t.handlers[h].p)
  {
    hide CachedOnce, DoBegin, Fits;
    ViewFits(s, h, id, principal);
  }

  lemma DoKeepsInv(s: State, a: Action)
    requires Inv(s)
    ensures Inv(Do(s, a))
  {
    hide Inv, Do, Grows;
    DoKeeps(s, a);
  }

  lemma ReadMoves(s: State, h: nat, id: Secret, principal: Principal)
    ensures var mid := DoBegin(s, h, View(id, principal)); mid.drawn == s.drawn && mid.handlers == s.handlers[h := mid.handlers[h]]
  {
    hide ViewPc, DecidePc, RefreshPc, RevokePc, Replay;
  }

  lemma WriteStep(s: State, h: nat, first: Secret, second: Secret)
    requires Inv(s) && Once(s) && OnlyViewing(s, h)
    requires first !in s.drawn && second !in s.drawn && first != second
    requires s.handlers[h].Viewing? ==> Fits(s, s.handlers[h].id, s.handlers[h].p)
    ensures var t := Do(s, Advance(h, first, second)); Inv(t) && Once(t) && NoneViewing(t)
  {
    hide Inv, Once, Fits, DoAdvance;
    DoKeepsInv(s, Advance(h, first, second));
    WriteFits(s, h, first, second);
    DoOnce(s, Advance(h, first, second));
    StepsView(s, h, first, second);
  }

  lemma ReadThenWrite(s: State, h: nat, id: Secret, principal: Principal, first: Secret, second: Secret)
    requires Inv(s) && Once(s) && NoneViewing(s) && h !in s.handlers
    requires first !in s.drawn && second !in s.drawn && first != second
    ensures var t := Do(Do(s, Begin(h, View(id, principal))), Advance(h, first, second));
      Inv(t) && Once(t) && NoneViewing(t)
  {
    hide Inv, Once, NoneViewing, Fits, Do;
    ReadStep(s, h, id, principal);
    WriteStep(Do(s, Begin(h, View(id, principal))), h, first, second);
  }

  lemma WriteFits(s: State, h: nat, first: Secret, second: Secret)
    requires h in s.handlers && (s.handlers[h].Viewing? ==> Fits(s, s.handlers[h].id, s.handlers[h].p))
    ensures Timely(s, Advance(h, first, second))
  {
    hide Fits, DoAdvance;
  }

  /** A request's first session is never replaced. */
  lemma BindingGrows(s: State, a: Action)
    ensures Extends(s.hist.bound, Do(s, a).hist.bound)
  {
    match a
    case Begin(h, call) => BeginAside(s, h, call); hide DoBegin;
    case Advance(h, first, second) =>
      if h in s.handlers {
        AdvanceBindingGrows(s, h, first, second);
      }
      hide DoAdvance;
    case _ => hide DoBegin, DoAdvance;
  }

  lemma AdvanceBindingGrows(s: State, h: nat, first: Secret, second: Secret)
    requires h in s.handlers
    ensures Extends(s.hist.bound, DoAdvance(s, h, first, second).hist.bound)
  {
    if InConsent(s.handlers[h]) {
      hide RefreshPc, RevokePc;
    } else {
      AdvanceAside(s, h, first, second);
      hide DoAdvance;
    }
  }

  lemma PlayOnce(s: State, turn: Turn)
    requires Inv(s) && Once(s) && NoneViewing(s)
    ensures Inv(Play(s, turn)) && Once(Play(s, turn)) && NoneViewing(Play(s, turn))
    ensures Extends(s.hist.bound, Play(s, turn).hist.bound)
  {
    match turn
    case Step(a) =>
      if !(a.Begin? && a.call.View?) {
        StepTimely(s, a);
        hide Inv, Once, Grows, Do, NoneViewing;
        DoKeeps(s, a);
        DoOnce(s, a);
        StepViewsNone(s, a);
        BindingGrows(s, a);
      }
    case GetAuthorization(h, id, principal, first, second) =>
      hide Inv, Once, Do, NoneViewing;
      if h !in s.handlers && first !in s.drawn && second !in s.drawn && first != second {
        ReadThenWrite(s, h, id, principal, first, second);
        BindingGrows(s, Begin(h, View(id, principal)));
        BindingGrows(Do(s, Begin(h, View(id, principal))), Advance(h, first, second));
      }
  }

  lemma StepTimely(s: State, a: Action)
    requires NoneViewing(s)
    ensures Timely(s, a)
  {
    hide Do;
  }

  lemma {:induction false} PlayAllOnce(s: State, turns: seq<Turn>)
    requires Inv(s) && Once(s) && NoneViewing(s)
    ensures Inv(PlayAll(s, turns)) && Once(PlayAll(s, turns)) && NoneViewing(PlayAll(s, turns))
    ensures Extends(s.hist.bound, PlayAll(s, turns).hist.bound)
    decreases |turns|
  {
    hide Inv, Once, NoneViewing, Play;
    if turns != [] {
      PlayOnce(s, turns[0]);
      PlayAllOnce(Play(s, turns[0]), turns[1..]);
    }
  }

  /**
   With getAuthorization as one step, in every interleaving: a request is
   decided at most once, by the session that first read it and by its first
   deadline; until then it stays cached, bound to that session and with that
   deadline; and the binding never changes.
  */
  lemma RequestsDecideOnce(env: Env, turns: seq<Turn>, more: seq<Turn>, h: nat, g: nat, id: Secret)
    ensures var s := PlayAll(Initial(env), turns);
      h in s.hist.decisions ==> DecidedWell(s, s.hist.decisions[h])
    ensures var s := PlayAll(Initial(env), turns);
      h in s.hist.decisions && g in s.hist.decisions && s.hist.decisions[h].id == s.hist.decisions[g].id ==> h == g
    ensures var s := PlayAll(Initial(env), turns);
      id in s.hist.requests ==>
        if id in s.pendings
        then !IsDecided(s.hist.decisions, id)
             && s.pendings[id].value.session == SessionOf(s.hist.bound, id)
             && s.pendings[id].expires == Some(s.hist.requests[id].deadline)
        else IsDecided(s.hist.decisions, id)
    ensures var s := PlayAll(Initial(env), turns);
      Extends(s.hist.bound, PlayAll(s, more).hist.bound)
  {
    var s := PlayAll(Initial(env), turns);
    InitialInv(env);
    InitialOnce(env);
    PlayAllOnce(Initial(env), turns);
    PlayAllOnce(s, more);
    hide Inv, BoundOk, Consumers, NoneViewing, PlayAll, IsDecided;
  }

  // ---- what a late write can do ----

  /** Two sessions read an unbound request, one writes and decides, then the other writes. */
  function LateWrite(first: Principal, second: Principal, ask: AuthRequest): seq<Action> {
    [Authorize(1, ask), Begin(1, View(1, first)), Begin(2, View(1, second)), Advance(1, 10, 11),
     Begin(3, Decide(1, first, true)), Advance(3, 10, 11), Advance(2, 10, 11),
     Begin(4, Decide(1, second, true)), Advance(4, 10, 11)]
  }

  /** Handler `late` still has to write the request for another session. */
  ghost predicate Stale(s: State, late: nat, p: Pending, other: Principal) {
    && s.now < p.expiresAt && s.drawn == {1}
    && late in s.handlers && s.handlers[late] == Viewing(1, p.(session := other.session))
  }

  lemma BothRead(env: Env, first: Principal, second: Principal, ask: AuthRequest)
    requires AuthorizeScopes(Initial(env), ask).Some? && first.session != ""
    ensures var p := Pending(ask.clientID, ask.redirectURI, ask.challenge, AuthorizeScopes(Initial(env), ask).value, 600, "");
      var s := Run(Initial(env), LateWrite(first, second, ask)[..4]);
      && Stale(s, 2, p, second) && s.handlers.Keys == {1, 2} && s.hist.decisions == map[]
      && s.pendings == map[1 := Entry(p.(session := first.session), Some(600))]
  {
    var s0 := Initial(env);
    var s1 := Do(s0, Authorize(1, ask));
    var s2 := Do(s1, Begin(1, View(1, first)));
    var s3 := Do(s2, Begin(2, View(1, second)));
    RunFour(s0, LateWrite(first, second, ask)[..4]);
    var p := Pending(ask.clientID, ask.redirectURI, ask.challenge, AuthorizeScopes(s0, ask).value, 600, "");
    assert s1.pendings == map[1 := Entry(p, Some(600))] && s1.handlers == map[] && s1.drawn == {1} && s1.now == 0;
    assert s2 == At(s1, 1, Viewing(1, p.(session := first.session)));
    assert s3 == At(s2, 2, Viewing(1, p.(session := second.session)));
  }

  lemma RunFour(s: State, actions: seq<Action>)
    requires |actions| == 4
    ensures Run(s, actions) == Do(Do(Do(Do(s, actions[0]), actions[1]), actions[2]), actions[3])
  {
    hide Do;
    RunSplit(s, actions[..2], actions[2..]);
    assert actions == actions[..2] + actions[2..];
    RunTwo(s, actions[..2]);
    RunTwo(Run(s, actions[..2]), actions[2..]);
  }

  lemma RunOne(s: State, a: Action)
    ensures Run(s, [a]) == Do(s, a)
  {
    hide Do;
    assert [a][1..] == [];
  }

  lemma RunTwo(s: State, actions: seq<Action>)
    requires |actions| == 2
    ensures Run(s, actions) == Do(Do(s, actions[0]), actions[1])
  {
    hide Do;
    assert Run(s, actions) == Run(Do(s, actions[0]), actions[1..]);
    assert Run(Do(s, actions[0]), actions[1..]) == Run(Do(Do(s, actions[0]), actions[1]), actions[1..][1..]);
  }

  lemma DecideNow(s: State, h: nat, principal: Principal, p: Pending)
    requires s.drawn == {1} && h !in s.handlers && s.now < p.expiresAt
    requires 1 in s.pendings && s.pendings[1] == Entry(p, Some(p.expiresAt))
    requires principal.session != "" && p.session == principal.session
    ensures var t := Do(Do(s, Begin(h, Decide(1, principal, true))), Advance(h, 10, 11));
      && t.drawn == s.drawn && t.now == s.now && t.pendings == s.pendings - {1}
      && h in t.handlers && t.handlers == s.handlers[h := t.handlers[h]]
      && t.hist.decisions == s.hist.decisions[h := Decision(1, principal, true, p, s.now)]
  {
    var mid := Do(s, Begin(h, Decide(1, principal, true)));
    assert mid == At(s, h, Consuming(1, principal, true, p));
  }

  /**
   With its two operations apart, a request can be decided twice, by two
   sessions: the second write puts the request back, bound to its own.
  */
  lemma LateWriteDecidesTwice(env: Env, first: Principal, second: Principal, ask: AuthRequest)
    requires AuthorizeScopes(Initial(env), ask).Some? && first.session != "" && second.session != ""
    ensures var s := Run(Initial(env), LateWrite(first, second, ask));
      && 3 in s.hist.decisions && s.hist.decisions[3].id == 1 && s.hist.decisions[3].principal == first
      && 4 in s.hist.decisions && s.hist.decisions[4].id == 1 && s.hist.decisions[4].principal == second
  {
    hide Run, Do, Initial, AuthorizeScopes;
    var p := Pending(ask.clientID, ask.redirectURI, ask.challenge, AuthorizeScopes(Initial(env), ask).value, 600, "");
    var all := LateWrite(first, second, ask);
    var s4 := Run(Initial(env), all[..4]);
    BothRead(env, first, second, ask);
    RunSplit(Initial(env), all[..4], all[4..]);
    assert all[..4] + all[4..] == all && all[4..] == all[4..8] + [all[8]];
    RunSplit(s4, all[4..8], [all[8]]);
    RunFour(s4, all[4..8]);
    RunOne(Run(s4, all[4..8]), all[8]);
    var s6 := Do(Do(s4, all[4]), all[5]);
    var s7 := Do(s6, all[6]);
    DecideNow(s4, 3, first, p.(session := first.session));
    LateBind(s6, p, second);
    DecideNow(s7, 4, second, p.(session := second.session));
  }

  lemma LateBind(s: State, p: Pending, other: Principal)
    requires Stale(s, 2, p, other)
    ensures var t := Do(s, Advance(2, 10, 11));
      && t.drawn == {1} && t.now == s.now && t.handlers == s.handlers[2 := Done(Viewed)]
      && t.hist.decisions == s.hist.decisions
      && t.pendings == s.pendings[1 := Entry(p.(session := other.session), Some(p.expiresAt))]
  {
  }

  lemma {:induction false} RunSplit(s: State, a: seq<Action>, b: seq<Action>)
    ensures Run(s, a + b) == Run(Run(s, a), b)
    decreases |a|
  {
    hide Do;
    if a == [] {
      assert a + b == b;
    } else {
      assert (a + b)[0] == a[0] && (a + b)[1..] == a[1..] + b;
      RunSplit(Do(s, a[0]), a[1..], b);
    }
  }

  /** There are such requests. */
  lemma SomeoneMayAsk(env: Env)
    ensures exists ask :: AuthorizeScopes(Initial(env), ask).Some?
  {
    var challenge := seq(43, i => 'a');
    var ask := AuthRequest("app", "", challenge, "S256", env.audience, "", "s");
    assert AuthorizeScopes(Initial(env), ask).Some?;
  }
}
