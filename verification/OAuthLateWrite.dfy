/**
 When a late write of getAuthorization does harm (internal/oauth/consent.go).

 Another handler may decide, bind or outlive a request between the read and the
 write. Here such a write is judged by what it leads to: whether, with every
 later getAuthorization in one step, some request comes to be decided twice, by
 another session than it was first bound to, or after its deadline.
*/
module OAuthLateWrite {
  import opened Wrappers
  import opened Scopes
  import opened OAuthState
  import opened OAuthMachine
  import opened OAuthInvariant
  import opened OAuthTheorems
  import opened OAuthPending

  /** Each decision is the only one on its request, by its first session and by its deadline. */
  ghost predicate DecidesRight(s: State) {
    DecidedOnce(s.hist.requests, s.hist.bound, s.hist.decisions)
  }

  /** The turn is not the write of a getAuthorization that read earlier. */
  predicate Prompt(s: State, turn: Turn) {
    turn.Step? && turn.a.Advance? && turn.a.h in s.handlers ==> !s.handlers[turn.a.h].Viewing?
  }

  ghost predicate PromptRun(s: State, turns: seq<Turn>)
    decreases |turns|
  {
    turns == [] || (Prompt(s, turns[0]) && PromptRun(Play(s, turns[0]), turns[1..]))
  }

  /** Nothing goes wrong from s on. */
  ghost predicate Harmless(s: State) {
    forall turns | PromptRun(s, turns) :: DecidesRight(PlayAll(s, turns))
  }

  /** A decision on the request has been read through and only has to take it. */
  predicate BeingDecided(s: State, id: Secret) {
    exists g :: g in s.handlers && s.handlers[g].Consuming? && s.handlers[g].id == id
  }

  // ---- a write that fits does no harm ----

  lemma PromptKeepsOnce(s: State, turn: Turn)
    requires Inv(s) && Once(s) && Prompt(s, turn)
    ensures Inv(Play(s, turn)) && Once(Play(s, turn))
  {
    match turn
    case Step(a) =>
      if !(a.Begin? && a.call.View?) {
        PromptIsTimely(s, a);
        hide Inv, Once, Do, Timely;
        DoKeepsInv(s, a);
        DoOnce(s, a);
      }
    case GetAuthorization(h, id, principal, first, second) =>
      hide Inv, Once, Do, Timely, Fits;
      if h !in s.handlers && first !in s.drawn && second !in s.drawn && first != second {
        var begin, mid := Begin(h, View(id, principal)), Do(s, Begin(h, View(id, principal)));
        BeginTimely(s, h, View(id, principal));
        DoKeepsInv(s, begin);
        DoOnce(s, begin);
        BeganView(s, h, id, principal);
        ViewFitsOnce(s, h, id, principal);
        WriteFits(mid, h, first, second);
        DoKeepsInv(mid, Advance(h, first, second));
        DoOnce(mid, Advance(h, first, second));
      }
  }

  lemma BeganView(s: State, h: nat, id: Secret, principal: Principal)
    requires h !in s.handlers
    ensures Do(s, Begin(h, View(id, principal))) == DoBegin(s, h, View(id, principal))
  {
    hide DoBegin;
  }

  lemma PromptIsTimely(s: State, a: Action)
    requires Prompt(s, Step(a))
    ensures Timely(s, a)
  {
    hide Do, Fits;
  }

  lemma {:induction false} PromptRunOnce(s: State, turns: seq<Turn>)
    requires Inv(s) && Once(s) && PromptRun(s, turns)
    ensures DecidesRight(PlayAll(s, turns))
    decreases |turns|
  {
    if turns == [] {
      hide Inv, CachedOnce, Kept, BoundOk, Consumers;
    } else {
      hide Inv, Once, Prompt, Play, DecidesRight;
      PromptKeepsOnce(s, turns[0]);
      PromptRunOnce(Play(s, turns[0]), turns[1..]);
    }
  }

  lemma FittingWriteIsHarmless(s: State, h: nat)
    requires Inv(s) && Once(s) && h in s.handlers && s.handlers[h].Viewing?
    requires Fits(s, s.handlers[h].id, s.handlers[h].p)
    ensures Harmless(Bind(s, h, s.handlers[h].id, s.handlers[h].p))
  {
    var id, p := s.handlers[h].id, s.handlers[h].p;
    var t := Bind(s, h, id, p);
    ViewingOk(s, h);
    BindKeeps(s, t, h, id, p);
    hide Inv, Once, Fits, Bind, Grows;
    BindOnce(s, h, id, p);
    forall turns | PromptRun(t, turns) ensures DecidesRight(PlayAll(t, turns)) {
      PromptRunOnce(t, turns);
    }
  }

  // ---- a write that comes after the deadline ----

  /** The request's own deadline has passed, and nobody is about to take it. */
  ghost predicate Over(s: State, id: Secret) {
    && id in s.hist.requests
    && (id in s.pendings ==> s.pendings[id].value.expiresAt <= s.now)
    && !BeingDecided(s, id)
  }

  /** What Once says of every request but id, and that id is over. */
  ghost predicate OnceBut(s: State, id: Secret) {
    && CachedOnce(s.pendings - {id}, s.hist.requests, s.hist.bound, s.hist.decisions)
    && DecidedOnce(s.hist.requests, s.hist.bound, s.hist.decisions)
    && BoundOk(s.hist.requests, s.hist.bound)
    && Consumers(s.hist.bound, s.handlers)
    && Over(s, id)
  }

  lemma AsideKeepsBut(s: State, t: State, h: nat, id: Secret)
    requires OnceBut(s, id) && Aside(s, t, h)
    requires t.handlers[h].Consuming? ==>
      && t.handlers[h].id != id
      && t.handlers[h].id in t.hist.bound && t.hist.bound[t.handlers[h].id] == t.handlers[h].principal.session
    ensures OnceBut(t, id)
  {
    hide CachedOnce, DecidedOnce, BoundOk;
    forall g | g in t.handlers && t.handlers[g].Consuming? ensures t.handlers[g].id != id {
      assert g != h ==> g in s.handlers && s.handlers[g] == t.handlers[g];
    }
  }

  lemma BeginKeepsBut(s: State, h: nat, call: Call, id: Secret)
    requires OnceBut(s, id) && h !in s.handlers
    ensures OnceBut(DoBegin(s, h, call), id)
  {
    BeginAside(s, h, call);
    BeginConsumesBut(s, h, call, id);
    hide DoBegin, OnceBut;
    AsideKeepsBut(s, DoBegin(s, h, call), h, id);
  }

  lemma BeginConsumesBut(s: State, h: nat, call: Call, id: Secret)
    requires OnceBut(s, id)
    ensures var pc := DoBegin(s, h, call).handlers[h];
      pc.Consuming? ==> pc.id != id && pc.id in s.hist.bound && s.hist.bound[pc.id] == pc.principal.session
  {
    if call.Decide? {
      hide ViewPc, RefreshPc, RevokePc, Replay, DecidedOnce, BoundOk, Consumers, BeingDecided;
      assert call.id != id && call.id in s.pendings ==> call.id in s.pendings - {id};
    } else {
      OthersConsumeNothing(s, h, call);
    }
    hide DoBegin;
  }

  lemma AuthorizeKeepsBut(s: State, other: Secret, ask: AuthRequest, id: Secret)
    requires OnceBut(s, id) && other !in s.hist.requests
    ensures OnceBut(DoAuthorize(s, other, ask), id)
  {
    match AuthorizeScopes(s, ask)
    case None =>
    case Some(scopes) =>
      var t := DoAuthorize(s, other, ask);
      assert t.handlers == s.handlers && t.hist.bound == s.hist.bound && t.hist.decisions == s.hist.decisions && t.now == s.now;
      var r, e := t.hist.requests[other], t.pendings[other];
      assert t.hist.requests == s.hist.requests[other := r] && t.pendings == s.pendings[other := e];
      hide DoAuthorize;
      RequestedOnce(s.pendings - {id}, s.hist.requests, s.hist.bound, s.hist.decisions, other, r, e);
      assert t.pendings - {id} == (s.pendings - {id})[other := e];
      hide CachedOnce, DecidedOnce, BoundOk, Consumers;
  }

  lemma ConsumeKeepsBut(s: State, h: nat, other: Secret, principal: Principal, allow: bool, p: Pending, id: Secret)
    requires OnceBut(s, id) && h in s.handlers && s.handlers[h] == Consuming(other, principal, allow, p)
    requires Hit(s.pendings, other, s.now) && h !in s.hist.decisions
    ensures OnceBut(Consume(s, h, other, principal, allow, p), id)
  {
    var t := Consume(s, h, other, principal, allow, p);
    var d := Decision(other, principal, allow, p, s.now);
    assert t.pendings == s.pendings - {other} && t.hist.decisions == s.hist.decisions[h := d] && t.now == s.now;
    assert t.hist.requests == s.hist.requests && t.hist.bound == s.hist.bound;
    assert t.handlers == s.handlers[h := t.handlers[h]] && !t.handlers[h].Consuming?;
    hide Consume;
    assert other != id;
    assert Consumers(t.hist.bound, t.handlers) && Over(t, id) by { hide CachedOnce, DecidedOnce, BoundOk; }
    TakenOnce(s.pendings - {id}, s.hist.requests, s.hist.bound, s.hist.decisions, h, d);
    assert t.pendings - {id} == (s.pendings - {id}) - {other};
    hide CachedOnce, DecidedOnce, BoundOk, Consumers, Over;
  }

  lemma BindKeepsBut(s: State, h: nat, other: Secret, p: Pending, id: Secret)
    requires OnceBut(s, id) && h in s.handlers && s.handlers[h] == Viewing(other, p) && other != id
    requires Fits(s, other, p) && other in s.hist.requests && Matches(p, s.hist.requests[other])
    ensures OnceBut(Bind(s, h, other, p), id)
  {
    var t := Bind(s, h, other, p);
    var e := NewEntry(p, s.now, p.expiresAt - s.now);
    BindWritesOne(s, h, other, p);
    BoundConsumers(s.hist.bound, s.handlers, h, other, p.session);
    assert t.now == s.now;
    hide Bind, FirstBound;
    assert Over(t, id) by { hide CachedOnce, DecidedOnce, BoundOk, Consumers; }
    BoundOnce(s.pendings - {id}, s.hist.requests, s.hist.bound, s.hist.decisions, other, e);
    assert t.pendings - {id} == (s.pendings - {id})[other := e];
    hide CachedOnce, DecidedOnce, BoundOk, Consumers, Over;
  }

  /** A step that is no late write. */
  lemma StepKeepsBut(s: State, a: Action, id: Secret)
    requires Inv(s) && OnceBut(s, id) && Prompt(s, Step(a))
    ensures OnceBut(Do(s, a), id)
  {
    match a
    case Tick(_) => hide Inv, CachedOnce, DecidedOnce, BoundOk, Consumers, DoAuthorize, DoBegin, DoAdvance;
    case Reconfigure(_) => hide Inv, CachedOnce, DecidedOnce, BoundOk, Consumers, DoAuthorize, DoBegin, DoAdvance;
    case Authorize(other, ask) =>
      RequestsDrawn(s);
      if other !in s.drawn {
        AuthorizeKeepsBut(s, other, ask, id);
      }
      hide Inv, OnceBut, DoAuthorize;
    case Begin(h, call) =>
      if h !in s.handlers {
        BeginKeepsBut(s, h, call, id);
      }
      hide Inv, OnceBut, DoBegin;
    case Advance(h, first, second) =>
      if h in s.handlers {
        AdvanceKeepsBut(s, h, first, second, id);
      }
      hide Inv, OnceBut, DoAdvance;
  }

  lemma AdvanceKeepsBut(s: State, h: nat, first: Secret, second: Secret, id: Secret)
    requires HandlersOk(s) && OnceBut(s, id) && h in s.handlers && !s.handlers[h].Viewing?
    ensures OnceBut(DoAdvance(s, h, first, second), id)
  {
    hide HandlersOk, OnceBut, Consume, Aside;
    if s.handlers[h].Consuming? {
      var pc := s.handlers[h];
      if Hit(s.pendings, pc.id, s.now) {
        ConsumingOk(s, h);
        ConsumeKeepsBut(s, h, pc.id, pc.principal, pc.allow, pc.p, id);
      } else {
        MissKeepsBut(s, h, id);
      }
    } else {
      AdvanceAside(s, h, first, second);
      hide DoAdvance;
      AsideKeepsBut(s, DoAdvance(s, h, first, second), h, id);
    }
  }

  lemma MissKeepsBut(s: State, h: nat, id: Secret)
    requires OnceBut(s, id) && h in s.handlers
    ensures OnceBut(At(s, h, Done(NotFound)), id)
  {
    AsideKeepsBut(s, At(s, h, Done(NotFound)), h, id);
    hide OnceBut;
  }

  /** An over request is not found; any other is bound in the state it was read in. */
  lemma ViewFitsBut(s: State, h: nat, other: Secret, principal: Principal, id: Secret)
    requires OnceBut(s, id) && h !in s.handlers
    ensures var t := DoBegin(s, h, View(other, principal));
      t.handlers[h].Viewing? ==> t.handlers[h].id != id && Fits(t, t.handlers[h].id, t.handlers[h].p)
    ensures !DoBegin(s, h, View(other, principal)).handlers[h].Consuming?
  {
    hide DecidePc, RefreshPc, RevokePc, Replay, DecidedOnce, BoundOk, Consumers, BeingDecided;
    assert other != id && other in s.pendings ==> other in s.pendings - {id};
  }

  lemma WriteKeepsBut(s: State, h: nat, first: Secret, second: Secret, id: Secret)
    requires HandlersOk(s) && OnceBut(s, id) && h in s.handlers
    requires s.handlers[h].Viewing? ==> s.handlers[h].id != id && Fits(s, s.handlers[h].id, s.handlers[h].p)
    ensures OnceBut(DoAdvance(s, h, first, second), id)
  {
    hide HandlersOk, OnceBut, Fits, Bind;
    if s.handlers[h].Viewing? {
      ViewingOk(s, h);
      BindKeepsBut(s, h, s.handlers[h].id, s.handlers[h].p, id);
    } else {
      AdvanceKeepsBut(s, h, first, second, id);
      hide DoAdvance;
    }
  }

  lemma PromptKeepsBut(s: State, turn: Turn, id: Secret)
    requires Inv(s) && OnceBut(s, id) && Prompt(s, turn)
    ensures Inv(Play(s, turn)) && OnceBut(Play(s, turn), id)
  {
    match turn
    case Step(a) =>
      hide Inv, OnceBut, Do, Prompt;
      if !(a.Begin? && a.call.View?) {
        DoKeepsInv(s, a);
        StepKeepsBut(s, a, id);
      }
    case GetAuthorization(h, other, principal, first, second) =>
      hide OnceBut, Fits;
      if h !in s.handlers && first !in s.drawn && second !in s.drawn && first != second {
        var begin, mid := Begin(h, View(other, principal)), Do(s, Begin(h, View(other, principal)));
        BeganView(s, h, other, principal);
        ReadMoves(s, h, other, principal);
        BeginKeepsBut(s, h, View(other, principal), id);
        ViewFitsBut(s, h, other, principal, id);
        hide DoBegin, DoAdvance;
        DoKeepsInv(s, begin);
        DoKeepsInv(mid, Advance(h, first, second));
        WriteKeepsBut(mid, h, first, second, id);
        hide Inv;
      }
  }

  lemma {:induction false} PromptRunBut(s: State, turns: seq<Turn>, id: Secret)
    requires Inv(s) && OnceBut(s, id) && PromptRun(s, turns)
    ensures DecidesRight(PlayAll(s, turns))
    decreases |turns|
  {
    if turns == [] {
      hide Inv, CachedOnce, BoundOk, Consumers, Over;
    } else {
      hide Inv, OnceBut, Prompt, Play, DecidesRight;
      PromptKeepsBut(s, turns[0], id);
      PromptRunBut(Play(s, turns[0]), turns[1..], id);
    }
  }

  /** A write after the deadline puts the request back for good, but no later read finds it. */
  lemma ExpiredBindIsOver(s: State, h: nat, id: Secret, p: Pending)
    requires Once(s) && h in s.handlers && s.handlers[h] == Viewing(id, p) && p.expiresAt <= s.now
    requires id in s.hist.requests && !BeingDecided(s, id)
    ensures OnceBut(Bind(s, h, id, p), id)
  {
    hide Bind, Kept, CachedOnce, DecidedOnce, BoundOk, Consumers;
    var t := Bind(s, h, id, p);
    BindWritesOne(s, h, id, p);
    BindKeepsNow(s, h, id, p);
    BoundConsumers(s.hist.bound, s.handlers, h, id, p.session);
    assert t.pendings - {id} == s.pendings - {id};
    forall g | g in t.handlers && t.handlers[g].Consuming? ensures t.handlers[g].id != id {
      assert g != h ==> g in s.handlers && s.handlers[g] == t.handlers[g];
    }
    StillCached(s.pendings, s.hist.requests, s.hist.bound, s.hist.decisions, id, p.session);
  }

  lemma BindKeepsNow(s: State, h: nat, id: Secret, p: Pending)
    ensures Bind(s, h, id, p).now == s.now && Bind(s, h, id, p).drawn == s.drawn
  {
  }

  lemma StillCached(
    pendings: map<Secret, Entry<Pending>>, requests: map<Secret, Request>, bound: map<Secret, string>,
    decisions: map<nat, Decision>, id: Secret, session: string)
    requires CachedOnce(pendings, requests, bound, decisions) && DecidedOnce(requests, bound, decisions) && BoundOk(requests, bound)
    requires id in requests
    ensures var now := FirstBound(bound, id, session);
      CachedOnce(pendings - {id}, requests, now, decisions) && DecidedOnce(requests, now, decisions) && BoundOk(requests, now)
  {
  }

  lemma ExpiredWriteIsHarmless(s: State, h: nat)
    requires Inv(s) && Once(s) && h in s.handlers && s.handlers[h].Viewing?
    requires s.handlers[h].p.expiresAt <= s.now && !BeingDecided(s, s.handlers[h].id)
    ensures Harmless(Bind(s, h, s.handlers[h].id, s.handlers[h].p))
  {
    var id, p := s.handlers[h].id, s.handlers[h].p;
    var t := Bind(s, h, id, p);
    ViewingOk(s, h);
    BindKeeps(s, t, h, id, p);
    hide Inv, Once, Bind, Grows, BeingDecided;
    ExpiredBindIsOver(s, h, id, p);
    forall turns | PromptRun(t, turns) ensures DecidesRight(PlayAll(t, turns)) {
      PromptRunBut(t, turns, id);
    }
  }

  // ---- a write that does harm ----

  /** The request is back in the cache under p, although it is decided or bound to another session. */
  ghost predicate Resurrected(s: State, id: Secret, p: Pending) {
    && id in s.pendings && s.pendings[id] == Entry(p, Some(p.expiresAt)) && s.now < p.expiresAt
    && (IsDecided(s.hist.decisions, id) || (id in s.hist.bound && s.hist.bound[id] != p.session))
    && s.hist.decisions.Keys <= s.handlers.Keys
  }

  /** Two secrets and a handler not used yet. */
  ghost predicate Unused(s: State, g: nat, x: Secret, y: Secret) {
    g !in s.handlers && x !in s.drawn && y !in s.drawn && x != y
  }

  lemma SomethingUnused(s: State) returns (g: nat, x: Secret, y: Secret)
    ensures Unused(s, g, x, y)
  {
    g := Above(s.handlers.Keys);
    x := Above(s.drawn);
    y := x + 1;
  }

  function As(session: string): Principal {
    Principal(session, Identity(Person("", ""), "", ""), [])
  }

  lemma DecideBegun(s: State, g: nat, id: Secret, p: Pending)
    requires Resurrected(s, id, p) && p.session != "" && g !in s.handlers
    ensures Do(s, Begin(g, Decide(id, As(p.session), true))) == At(s, g, Consuming(id, As(p.session), true, p))
  {
  }

  lemma DecideTaken(s: State, g: nat, id: Secret, p: Pending, x: Secret, y: Secret)
    requires Resurrected(s, id, p) && Unused(s, g, x, y)
    ensures var t := Do(At(s, g, Consuming(id, As(p.session), true, p)), Advance(g, x, y));
      && t.hist.decisions == s.hist.decisions[g := Decision(id, As(p.session), true, p, s.now)]
      && t.hist.bound == s.hist.bound && t.hist.requests == s.hist.requests
  {
    hide Resurrected;
    assert Hit(s.pendings, id, s.now) by { ResurrectedIsHit(s, id, p); }
  }

  lemma ResurrectedIsHit(s: State, id: Secret, p: Pending)
    requires Resurrected(s, id, p)
    ensures Hit(s.pendings, id, s.now)
  {
  }

  lemma BadDecision(
    requests: map<Secret, Request>, bound: map<Secret, string>, decisions: map<nat, Decision>, g: nat, d: Decision)
    requires g !in decisions
    requires IsDecided(decisions, d.id) || (d.id in bound && bound[d.id] != d.principal.session)
    ensures !DecidedOnce(requests, bound, decisions[g := d])
  {
    var after := decisions[g := d];
    assert after[g] == d;
    if IsDecided(decisions, d.id) {
      var h :| h in decisions && decisions[h].id == d.id;
      assert after[h].id == after[g].id;
    }
  }

  lemma PlayTwo(s: State, a: Turn, b: Turn)
    ensures PlayAll(s, [a, b]) == Play(Play(s, a), b)
    ensures PromptRun(s, [a, b]) <==> Prompt(s, a) && Prompt(Play(s, a), b)
  {
    hide Play, Prompt;
    assert [a, b][1..] == [b] && [b][1..] == [];
    assert PlayAll(Play(s, a), [b]) == PlayAll(Play(Play(s, a), b), []);
    assert PromptRun(Play(s, a), [b]) <==> Prompt(Play(s, a), b) && PromptRun(Play(Play(s, a), b), []);
  }

  /** Whoever holds that session decides it, again or instead. */
  lemma ResurrectedIsHarmful(s: State, id: Secret, p: Pending)
    requires Resurrected(s, id, p) && p.session != ""
    ensures !Harmless(s)
  {
    hide Harmless;
    var g, x, y := SomethingUnused(s);
    var a, b := Step(Begin(g, Decide(id, As(p.session), true))), Step(Advance(g, x, y));
    var mid := At(s, g, Consuming(id, As(p.session), true, p));
    DecideBegun(s, g, id, p);
    DecideTaken(s, g, id, p, x, y);
    assert g !in s.hist.decisions;
    BadDecision(s.hist.requests, s.hist.bound, s.hist.decisions, g, Decision(id, As(p.session), true, p, s.now));
    hide Do, Resurrected;
    PlayTwo(s, a, b);
    assert Play(s, a) == mid && Prompt(s, a) && Prompt(mid, b);
    HarmIsFound(s, [a, b]);
  }

  lemma HarmIsFound(s: State, turns: seq<Turn>)
    requires PromptRun(s, turns) && !DecidesRight(PlayAll(s, turns))
    ensures !Harmless(s)
  {
    hide DecidesRight, PlayAll, PromptRun;
  }

  lemma HarmFollows(s: State, turn: Turn)
    requires Prompt(s, turn) && !Harmless(Play(s, turn))
    ensures !Harmless(s)
  {
    hide Prompt, Play, DecidesRight;
    var turns :| PromptRun(Play(s, turn), turns) && !DecidesRight(PlayAll(Play(s, turn), turns));
    assert ([turn] + turns)[1..] == turns;
    assert PromptRun(s, [turn] + turns) && PlayAll(s, [turn] + turns) == PlayAll(Play(s, turn), turns);
  }

  /** A session other than the one the request was first bound to. */
  function Stranger(s: State, id: Secret): (session: string)
    ensures session != "" && session != SessionOf(s.hist.bound, id)
  {
    SessionOf(s.hist.bound, id) + "x"
  }

  lemma UnboundView(s: State, g: nat, id: Secret, p: Pending, session: string)
    requires Resurrected(s, id, p) && p.session == "" && g !in s.handlers
    ensures Do(s, Begin(g, View(id, As(session)))) == At(s, g, Viewing(id, p.(session := session)))
  {
  }

  lemma StrangerBinds(s: State, g: nat, id: Secret, p: Pending, x: Secret, y: Secret)
    requires Resurrected(s, id, p) && p.session == "" && Unused(s, g, x, y)
    ensures var q := p.(session := Stranger(s, id));
      Resurrected(Play(s, GetAuthorization(g, id, As(q.session), x, y)), id, q)
  {
    var q := p.(session := Stranger(s, id));
    var mid := At(s, g, Viewing(id, q));
    UnboundView(s, g, id, p, q.session);
    assert Do(mid, Advance(g, x, y)) == Bind(mid, g, id, q) by { hide Bind, Resurrected; }
    BindWritesOne(mid, g, id, q);
    BindKeepsNow(mid, g, id, q);
    hide Do, Bind;
  }

  lemma RestoredIsHarmful(s: State, id: Secret, p: Pending)
    requires Resurrected(s, id, p)
    ensures !Harmless(s)
  {
    hide Harmless, Resurrected, Play;
    if p.session != "" {
      ResurrectedIsHarmful(s, id, p);
    } else {
      var g, x, y := SomethingUnused(s);
      var q := p.(session := Stranger(s, id));
      var turn := GetAuthorization(g, id, As(q.session), x, y);
      StrangerBinds(s, g, id, p, x, y);
      ResurrectedIsHarmful(Play(s, turn), id, q);
      HarmFollows(s, turn);
    }
  }

  /** A write in time that does not fit puts back a request that is decided, or another session's. */
  lemma MisfitRestores(s: State, h: nat, id: Secret, p: Pending)
    requires Once(s) && KeysOk(s.hist, s.handlers) && h in s.handlers && s.handlers[h] == Viewing(id, p)
    requires id in s.hist.requests && !Fits(s, id, p) && s.now < p.expiresAt
    ensures Resurrected(Bind(s, h, id, p), id, p)
  {
    BindWritesOne(s, h, id, p);
    BindKeepsNow(s, h, id, p);
    hide Bind, CachedOnce, DecidedOnce, Consumers;
  }

  /** A decision already read through takes what a write after the deadline put back. */
  lemma TakenLate(s: State, h: nat, id: Secret, p: Pending, g: nat, x: Secret, y: Secret)
    requires h in s.handlers && s.handlers[h] == Viewing(id, p) && p.expiresAt <= s.now
    requires id in s.hist.requests && Matches(p, s.hist.requests[id])
    requires g in s.handlers && s.handlers[g].Consuming? && s.handlers[g].id == id && g !in s.hist.decisions
    requires x !in s.drawn && y !in s.drawn && x != y
    ensures var late := Do(Do(Bind(s, h, id, p), Tick(1)), Advance(g, x, y)); !DecidesRight(late)
  {
    var t := Bind(s, h, id, p);
    BindWritesOne(s, h, id, p);
    BindKeepsNow(s, h, id, p);
    hide Bind;
    var u := Do(t, Tick(1));
    assert u == t.(now := t.now + 1);
    LateTake(u, g, x, y);
  }

  lemma LateTake(s: State, g: nat, x: Secret, y: Secret)
    requires g in s.handlers && s.handlers[g].Consuming? && g !in s.hist.decisions
    requires x !in s.drawn && y !in s.drawn && x != y
    requires var id := s.handlers[g].id;
      Hit(s.pendings, id, s.now) && id in s.hist.requests && s.hist.requests[id].deadline < s.now
    ensures !DecidesRight(Do(s, Advance(g, x, y)))
  {
    var t := Do(s, Advance(g, x, y));
    assert g in t.hist.decisions && t.hist.decisions[g].id == s.handlers[g].id && t.hist.decisions[g].at == s.now;
    assert t.hist.requests == s.hist.requests;
  }

  lemma OverdueTurns(s: State, h: nat, id: Secret, p: Pending, g: nat, x: Secret, y: Secret)
    requires h in s.handlers && s.handlers[h] == Viewing(id, p) && g in s.handlers && s.handlers[g].Consuming?
    requires !DecidesRight(Do(Do(Bind(s, h, id, p), Tick(1)), Advance(g, x, y)))
    ensures !Harmless(Bind(s, h, id, p))
  {
    hide DecidesRight, Harmless, Bind, Do;
    BindWritesOne(s, h, id, p);
    var t, a, b := Bind(s, h, id, p), Step(Tick(1)), Step(Advance(g, x, y));
    TickMoves(t);
    PlayTwo(t, a, b);
    HarmIsFound(t, [a, b]);
  }

  lemma OverdueIsHarmful(s: State, h: nat)
    requires HandlersOk(s) && h in s.handlers && s.handlers[h].Viewing?
    requires s.handlers[h].p.expiresAt <= s.now && BeingDecided(s, s.handlers[h].id)
    ensures !Harmless(Bind(s, h, s.handlers[h].id, s.handlers[h].p))
  {
    hide HandlersOk, DecidesRight, Harmless, Bind, Do;
    var id, p := s.handlers[h].id, s.handlers[h].p;
    ViewingOk(s, h);
    var g :| g in s.handlers && s.handlers[g].Consuming? && s.handlers[g].id == id;
    ConsumingOk(s, g);
    var _, x, y := SomethingUnused(s);
    TakenLate(s, h, id, p, g, x, y);
    OverdueTurns(s, h, id, p, g, x, y);
  }

  lemma TickMoves(s: State)
    ensures Do(s, Tick(1)).handlers == s.handlers
  {
  }

  // ---- exactly when ----

  /**
   A getAuthorization's write leads to no wrong decision exactly when it finds
   the request still cached, not bound to another session and in time, or comes
   after the deadline with nobody about to take the request.
  */
  lemma LateWriteIsHarmlessIff(s: State, h: nat)
    requires Inv(s) && Once(s) && h in s.handlers && s.handlers[h].Viewing?
    ensures var id := s.handlers[h].id;
      var p := s.handlers[h].p;
      Harmless(Bind(s, h, id, p)) <==>
        if s.now < p.expiresAt
        then id in s.pendings && (SessionOf(s.hist.bound, id) == "" || SessionOf(s.hist.bound, id) == p.session)
        else !BeingDecided(s, id)
  {
    var id, p := s.handlers[h].id, s.handlers[h].p;
    if Fits(s, id, p) {
      FittingWriteIsHarmless(s, h);
    } else if s.now < p.expiresAt {
      ViewingOk(s, h);
      MisfitRestores(s, h, id, p);
      hide Inv, Once;
      RestoredIsHarmful(Bind(s, h, id, p), id, p);
    } else if BeingDecided(s, id) {
      OverdueIsHarmful(s, h);
    } else {
      ExpiredWriteIsHarmless(s, h);
    }
    hide Inv, Once, Harmless, Bind, BeingDecided;
  }
}
