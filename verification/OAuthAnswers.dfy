/**
 What a token request is answered for: the code or refresh token it presented
 (internal/oauth/token.go).
*/
module OAuthAnswers {
  import opened Wrappers
  import opened Scopes
  import opened OAuthState
  import opened OAuthMachine
  import opened OAuthInvariant
  import opened OAuthTheorems

  /** A code, or a refresh token. */
  datatype Credential = Credential(hash: Digest, refreshed: bool)

  /** What a call presents. */
  function Presented(call: Call): Option<Credential> {
    match call
    case Redeem(form) => if form.code.Some? then Some(Credential(Digest(form.code.value), false)) else None
    case Refresh(ask) => if ask.token.Some? then Some(Credential(Digest(ask.token.value), true)) else None
    case _ => None
  }

  /** A handler at pc answers, if with tokens, for c. */
  predicate Carries(pc: Handler, c: Credential) {
    match pc
    case Taking(code, _) => c == Credential(Digest(code), false)
    case Starting(code, _, _) => c == Credential(Digest(code), false)
    case Marking(code, _, _, _) => c == Credential(Digest(code), false)
    case Resolving(token, _, _) => c == Credential(Digest(token), true)
    case Rotating(token, _, _, _) => c == Credential(Digest(token), true)
    case Revoking(_, next) => !next.Issued?
    case Done(outcome) => outcome.Issued? ==> c == Credential(outcome.access.credential, outcome.access.refreshed)
    case _ => false
  }

  lemma BeginCarries(s: State, h: nat, call: Call)
    requires Presented(call).Some?
    ensures Carries(DoBegin(s, h, call).handlers[h], Presented(call).value)
  {
    if call.Redeem? {
      hide ViewPc, DecidePc, RefreshPc, RevokePc;
    } else {
      hide ViewPc, DecidePc, RevokePc, Replay;
    }
  }

  lemma AdvanceCarries(s: State, h: nat, first: Secret, second: Secret, c: Credential)
    requires h in s.handlers && Carries(s.handlers[h], c)
    ensures Carries(DoAdvance(s, h, first, second).handlers[h], c)
  {
    hide DoAdvance;
    if s.handlers[h].Resolving? || s.handlers[h].Rotating? || s.handlers[h].Revoking? {
      RefreshCarries(s, h, first, second, c);
    } else {
      RedeemCarries(s, h, first, second, c);
    }
  }

  lemma RedeemCarries(s: State, h: nat, first: Secret, second: Secret, c: Credential)
    requires h in s.handlers && Carries(s.handlers[h], c)
    requires !s.handlers[h].Resolving? && !s.handlers[h].Rotating? && !s.handlers[h].Revoking?
    ensures Carries(DoAdvance(s, h, first, second).handlers[h], c)
  {
    hide CheckCode, JoinScopes, InsertRow, TakeCode, Bind, Consume, Record, IssueCode, Rotate, ResolvePc, FinishRevoking;
    if s.handlers[h].Taking? && Hit(s.codes, Digest(s.handlers[h].code), s.now) {
      TakeCarries(s, h, s.handlers[h].code, s.handlers[h].form, c);
    }
  }

  lemma TakeCarries(s: State, h: nat, code: Secret, form: RedeemForm, c: Credential)
    requires Digest(code) in s.codes && c == Credential(Digest(code), false)
    ensures Carries(TakeCode(s, h, code, form).handlers[h], c)
  {
    hide CheckCode;
  }

  lemma RefreshCarries(s: State, h: nat, first: Secret, second: Secret, c: Credential)
    requires h in s.handlers && Carries(s.handlers[h], c)
    requires s.handlers[h].Resolving? || s.handlers[h].Rotating? || s.handlers[h].Revoking?
    ensures Carries(DoAdvance(s, h, first, second).handlers[h], c)
  {
    hide Refreshed, JoinScopes, RotateRow, RevokeRows;
  }

  lemma StepCarries(s: State, a: Action, h: nat, c: Credential)
    requires h in s.handlers && Carries(s.handlers[h], c)
    ensures h in Do(s, a).handlers && Carries(Do(s, a).handlers[h], c)
  {
    hide Carries, DoAuthorize, DoBegin, DoAdvance;
    if a.Advance? && a.h == h {
      AdvanceCarries(s, h, a.first, a.second, c);
    } else {
      Bystander(s, a, h);
    }
  }

  lemma {:induction false} RunCarries(s: State, actions: seq<Action>, h: nat, c: Credential)
    requires h in s.handlers && Carries(s.handlers[h], c)
    ensures h in Run(s, actions).handlers && Carries(Run(s, actions).handlers[h], c)
    decreases |actions|
  {
    hide Carries, Do;
    if actions != [] {
      StepCarries(s, actions[0], h, c);
      RunCarries(Do(s, actions[0]), actions[1..], h, c);
    }
  }

  /** An answer with tokens is for the code or refresh token the call presented. */
  lemma AnswersWhatWasPresented(s: State, h: nat, call: Call, actions: seq<Action>)
    requires h !in s.handlers && Presented(call).Some?
    ensures var t := Run(Do(s, Begin(h, call)), actions);
      && h in t.handlers && Carries(t.handlers[h], Presented(call).value)
      && (Answered(t, h) ==>
            Presented(call).value == Credential(t.handlers[h].outcome.access.credential, t.handlers[h].outcome.access.refreshed))
  {
    hide Presented, DoBegin, Run;
    BeginCarries(s, h, call);
    RunCarries(Do(s, Begin(h, call)), actions, h, Presented(call).value);
  }

  /**
   Of two requests that present one code, or one refresh token, however they
   overlap with each other and with anything else, at most one is answered with
   tokens.
  */
  lemma OneAnswerPerCredential(
    env: Env, before: seq<Action>, h: nat, a: Call, between: seq<Action>, g: nat, b: Call, after: seq<Action>)
    requires Presented(a).Some? && Presented(a) == Presented(b)
    requires h !in Run(Initial(env), before).handlers
    requires g !in Run(Do(Run(Initial(env), before), Begin(h, a)), between).handlers
    ensures var t := Run(Do(Run(Do(Run(Initial(env), before), Begin(h, a)), between), Begin(g, b)), after);
      !(Answered(t, h) && Answered(t, g))
  {
    hide Inv, Grows, Do, Run, Carries, Presented;
    var s0 := Run(Initial(env), before);
    var s1 := Run(Do(s0, Begin(h, a)), between);
    var t := Run(Do(s1, Begin(g, b)), after);
    InitialInv(env);
    RunKeeps(Initial(env), before);
    DoKeeps(s0, Begin(h, a));
    RunKeeps(Do(s0, Begin(h, a)), between);
    DoKeeps(s1, Begin(g, b));
    RunKeeps(Do(s1, Begin(g, b)), after);
    AnswersWhatWasPresented(s0, h, a, between);
    StepCarries(s1, Begin(g, b), h, Presented(a).value);
    RunCarries(Do(s1, Begin(g, b)), after, h, Presented(a).value);
    AnswersWhatWasPresented(s1, g, b, after);
    if Answered(t, h) && Answered(t, g) {
      CarriedByAnswer(t, h, Presented(a).value);
      SignedOnce(t, h, g);
    }
  }

  lemma CarriedByAnswer(s: State, h: nat, c: Credential)
    requires Answered(s, h) && Carries(s.handlers[h], c)
    ensures c == Credential(s.handlers[h].outcome.access.credential, s.handlers[h].outcome.access.refreshed)
  {
  }
}
