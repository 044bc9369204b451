/**
 The consent handler (oauth/consent/handler.go) and whole runs of POSTs to it.

 A POST touches the approval store at most once, in one critical section, so every interleaving of
 POSTs is a list of them in the order of those sections. A clock sample that a POST takes before its
 section (the expiry of a new token, the first check of a presented one) may be older by any `pause`.
 Everything outside the handler (the authorize request check, the authenticator, the policy, the
 challenge, the random nonce, the token issuer) is given by the environment of the POST.
 */
module ConsentRuns {
  import opened Wrappers
  import opened Text
  import opened ApprovalStore
  import Form = ConsentForm

  datatype Challenge = NoChallenge | ChallengeRequired | ChallengeFailed

  datatype Env = Env(
    requestOk: bool,
    resourcesOk: bool,
    subject: Option<string>,
    scopesOk: bool,
    allowsSkip: bool,
    challenge: Challenge,
    nonce: Option<string>,
    pause: nat,
    grantOk: bool)

  datatype Page =
    | InvalidRequest
    | LoginPage
    | ChallengePage
    | ConsentPage(token: string)
    | AccessDenied
    | ServerError
    | Authorized(id: string)

  datatype Handled = Handled(issued: Issued, page: Page)

  /** Values.Get */
  function Get(values: Form.Values, k: string): string {
    if k in values && values[k] != [] then values[k][0] else ""
  }

  /** completeApprove: scopes, resource and response must all succeed. */
  function CompleteApprove(env: Env, id: string): Page {
    if env.grantOk then Authorized(id) else AccessDenied
  }

  function HandleLogin(c: Crypto, issued: Issued, form: Form.Values, env: Env, now: Time): Handled {
    if Get(form, "username") == "" || Get(form, "password") == "" then Handled(issued, LoginPage)
    else if env.subject.None? then Handled(issued, LoginPage)
    else if !env.scopesOk then Handled(issued, AccessDenied)
    else if env.allowsSkip then Handled(issued, CompleteApprove(env, env.subject.value))
    else if env.challenge.ChallengeRequired? then Handled(issued, ChallengePage)
    else if env.challenge.ChallengeFailed? then Handled(issued, ServerError)
    else if env.nonce.None? then Handled(issued, ServerError)
    else
      var exp := Unix(now + TTL);
      var token := Token(c, env.subject.value, exp, Form.Clean(form), env.nonce.value);
      Handled(issued[token := exp], ConsentPage(token))
  }

  function HandleApprove(c: Crypto, issued: Issued, form: Form.Values, env: Env, now: Time): Handled {
    var r := Consume(c, issued, Get(form, "approval_token"), Form.Clean(form), now, now + env.pause);
    Handled(r.issued, if r.subject.None? then LoginPage else CompleteApprove(env, r.subject.value))
  }

  function HandleDeny(c: Crypto, issued: Issued, form: Form.Values, env: Env, now: Time): Handled {
    Handled(Consume(c, issued, Get(form, "approval_token"), Form.Clean(form), now, now + env.pause).issued, AccessDenied)
  }

  function HandlePost(c: Crypto, issued: Issued, form: Form.Values, env: Env, now: Time): Handled {
    if !env.requestOk || !env.resourcesOk then Handled(issued, InvalidRequest)
    else if Get(form, "action") == "login" then HandleLogin(c, issued, form, env, now)
    else if Get(form, "action") == "approve" then HandleApprove(c, issued, form, env, now)
    else if Get(form, "action") == "deny" then HandleDeny(c, issued, form, env, now)
    else Handled(issued, LoginPage)
  }

  class Handler {
    const c: Crypto
    const store: DefaultApprovalStore

    constructor (c: Crypto, store: DefaultApprovalStore)
      ensures this.c == c && this.store == store
    {
      this.c, this.store := c, store;
    }

    method Post(form: Form.Values, env: Env, now: Time) returns (page: Page)
      modifies store
      ensures Handled(store.issued, page) == HandlePost(c, old(store.issued), form, env, now)
    {
      var clean := Form.OAuthAuthorizeValues(form);
      if !env.requestOk {
        return InvalidRequest;
      }
      if !env.resourcesOk {
        return InvalidRequest;
      }
      var action := Get(form, "action");
      if action == "login" {
        page := Login(form, clean, env, now);
      } else if action == "approve" {
        page := Approve(form, clean, env, now);
      } else if action == "deny" {
        var _ := store.ConsumeToken(c, Get(form, "approval_token"), clean, now, now + env.pause);
        page := AccessDenied;
      } else {
        page := LoginPage;
      }
    }

    method Login(form: Form.Values, clean: Form.Values, env: Env, now: Time) returns (page: Page)
      requires clean == Form.Clean(form)
      modifies store
      ensures Handled(store.issued, page) == HandleLogin(c, old(store.issued), form, env, now)
    {
      if Get(form, "username") == "" || Get(form, "password") == "" {
        return LoginPage;
      }
      if env.subject.None? {
        return LoginPage;
      }
      if !env.scopesOk {
        return AccessDenied;
      }
      if env.allowsSkip {
        return CompleteApprove(env, env.subject.value);
      }
      if env.challenge.ChallengeRequired? {
        return ChallengePage;
      }
      if env.challenge.ChallengeFailed? {
        return ServerError;
      }
      if env.nonce.None? {
        return ServerError;
      }
      var token := store.Issue(c, env.subject.value, clean, env.nonce.value, now);
      return ConsentPage(token);
    }

    method Approve(form: Form.Values, clean: Form.Values, env: Env, now: Time) returns (page: Page)
      requires clean == Form.Clean(form)
      modifies store
      ensures Handled(store.issued, page) == HandleApprove(c, old(store.issued), form, env, now)
    {
      var subject := store.ConsumeToken(c, Get(form, "approval_token"), clean, now, now + env.pause);
      if subject.None? {
        return LoginPage;
      }
      return CompleteApprove(env, subject.value);
    }
  }

  // What the pages mean --------------------------------------------------------------------------

  /** The first value of a name is the one that counts. */
  lemma GetIsTheFirst(values: Form.Values, k: string, v: string, rest: seq<string>)
    ensures Get(values[k := [v] + rest], k) == v && Get(values - {k}, k) == ""
  {
  }

  /** A login that may go on: both credentials were given, they are right, and the policy admits the scopes. */
  predicate Admitted(form: Form.Values, env: Env) {
    Get(form, "username") != "" && Get(form, "password") != "" && env.subject.Some? && env.scopesOk
  }

  /** Who gets an authorization response: an approval with a good token, or a login that may skip consent. */
  lemma AuthorizedIff(c: Crypto, issued: Issued, form: Form.Values, env: Env, now: Time)
    ensures var page := HandlePost(c, issued, form, env, now).page;
            var consumed := Consume(c, issued, Get(form, "approval_token"), Form.Clean(form), now, now + env.pause).subject;
            && (page.Authorized? <==>
                  && env.requestOk && env.resourcesOk && env.grantOk
                  && ((Get(form, "action") == "approve" && consumed.Some?) ||
                      (Get(form, "action") == "login" && Admitted(form, env) && env.allowsSkip)))
            && (page.Authorized? && Get(form, "action") == "approve" ==> consumed == Some(page.id))
            && (page.Authorized? && Get(form, "action") == "login" ==> env.subject == Some(page.id))
  {
    hide Consume, Form.Clean, Token;
  }

  /** Who is asked for consent: an admitted login that may not skip it, has no challenge open and got its token. */
  lemma ConsentPageIff(c: Crypto, issued: Issued, form: Form.Values, env: Env, now: Time)
    ensures var h := HandlePost(c, issued, form, env, now);
            && (h.page.ConsentPage? <==>
                  && env.requestOk && env.resourcesOk && Get(form, "action") == "login" && Admitted(form, env)
                  && !env.allowsSkip && env.challenge.NoChallenge? && env.nonce.Some?)
            && (h.page.ConsentPage? ==> h.issued == issued[h.page.token := Unix(now + TTL)])
  {
    hide Consume, Form.Clean, Token;
  }

  /** Who is turned away, and how. */
  lemma OtherPages(c: Crypto, issued: Issued, form: Form.Values, env: Env, now: Time)
    ensures var page := HandlePost(c, issued, form, env, now).page;
            var checked, action := env.requestOk && env.resourcesOk, Get(form, "action");
            var waiting := checked && action == "login" && Admitted(form, env) && !env.allowsSkip;
            && (page.InvalidRequest? <==> !checked)
            && (page.ChallengePage? <==> waiting && env.challenge.ChallengeRequired?)
            && (page.ServerError? <==> waiting && (env.challenge.ChallengeFailed? || (env.challenge.NoChallenge? && env.nonce.None?)))
            && (checked && action == "deny" ==> page == AccessDenied)
            && (checked && action != "login" && action != "approve" && action != "deny" ==> page == LoginPage)
            && (checked && action == "login" && !Admitted(form, env) ==>
                  page == if Get(form, "username") == "" || Get(form, "password") == "" || env.subject.None? then LoginPage else AccessDenied)
            && (checked && action == "login" && Admitted(form, env) && env.allowsSkip && !env.grantOk ==> page == AccessDenied)
  {
    hide Consume, Form.Clean, Token;
  }

  /** An approval without a good token goes back to the login, and one that cannot be granted is denied. */
  lemma ApprovalPages(c: Crypto, issued: Issued, form: Form.Values, env: Env, now: Time)
    requires env.requestOk && env.resourcesOk && Get(form, "action") == "approve"
    ensures var consumed := Consume(c, issued, Get(form, "approval_token"), Form.Clean(form), now, now + env.pause).subject;
            HandlePost(c, issued, form, env, now).page ==
            if consumed.None? then LoginPage else if env.grantOk then Authorized(consumed.value) else AccessDenied
  {
    hide Consume, Form.Clean, Token;
  }

  /** Apart from issuing a token, a POST changes the store only by presenting one. */
  lemma StoreAfterPost(c: Crypto, issued: Issued, form: Form.Values, env: Env, now: Time)
    ensures var h := HandlePost(c, issued, form, env, now);
            var presents := env.requestOk && env.resourcesOk && (Get(form, "action") == "approve" || Get(form, "action") == "deny");
            && (presents ==> h.issued == Consume(c, issued, Get(form, "approval_token"), Form.Clean(form), now, now + env.pause).issued)
            && (!presents && !h.page.ConsentPage? ==> h.issued == issued)
  {
    hide Consume, Form.Clean, Token;
  }

  // ---------------------------------------------------------------------------------------------
  // Runs
  // ---------------------------------------------------------------------------------------------

  datatype Login = Login(token: string, id: string, params: Form.Values, nonce: string, at: Time)

  datatype Approval = Approval(token: string, id: string, params: Form.Values, at: Time)

  /** The handler's store, and what it has done so far. */
  datatype Sys = Sys(clock: Time, issued: Issued, logins: seq<Login>, approvals: seq<Approval>, answers: seq<Answer>)

  /** One POST and the page it got. */
  datatype Answer = Answer(form: Form.Values, env: Env, page: Page)

  datatype Action = Tick(delta: nat) | Post(form: Form.Values, env: Env)

  predicate Init(s: Sys) {
    s.issued == map[] && s.logins == [] && s.approvals == [] && s.answers == []
  }

  /** What the random generator never does: repeat a nonce, or leave the base64 alphabet. */
  predicate BadNonce(s: Sys, env: Env) {
    env.nonce.Some? && ('|' in env.nonce.value || exists l :: l in s.logins && l.nonce == env.nonce.value)
  }

  function Step(c: Crypto, s: Sys, a: Action): Sys {
    match a
    case Tick(delta) => s.(clock := s.clock + delta)
    case Post(form, env) =>
      if BadNonce(s, env) then s else
      var start := s.clock - env.pause;
      var h := HandlePost(c, s.issued, form, env, start);
      s.(issued := h.issued,
      answers := s.answers + [Answer(form, env, h.page)],
      logins := if h.page.ConsentPage?
                then s.logins + [Login(h.page.token, env.subject.value, Form.Clean(form), env.nonce.value, start)]
                else s.logins,
      approvals := if h.page.Authorized? && Get(form, "action") == "approve"
                   then s.approvals + [Approval(Get(form, "approval_token"), h.page.id, Form.Clean(form), s.clock)]
                   else s.approvals)
  }

  function Run(c: Crypto, s: Sys, actions: seq<Action>): Sys
    decreases |actions|
  {
    if actions == [] then s else Run(c, Step(c, s, actions[0]), actions[1..])
  }

  // Invariants -----------------------------------------------------------------------------------

  /** A login's token is the one that was printed for it. */
  ghost predicate LoginSound(c: Crypto, l: Login) {
    '|' !in l.nonce && l.token == Token(c, l.id, Unix(l.at + TTL), l.params, l.nonce) && Form.Clean(l.params) == l.params
  }

  /** Login l is the one that the approval answers. */
  ghost predicate Answers(a: Approval, l: Login) {
    a.token == l.token && a.id == l.id && a.params == l.params && l.at <= a.at < l.at + TTL
  }

  ghost predicate Inv(c: Crypto, s: Sys) {
    && (forall l :: l in s.logins ==> LoginSound(c, l) && l.at <= s.clock)
    && (forall i, j :: 0 <= i < j < |s.logins| ==> s.logins[i].token != s.logins[j].token)
    && (forall t :: t in s.issued ==> exists l :: l in s.logins && l.token == t && s.issued[t] == Unix(l.at + TTL))
    && (forall a :: a in s.approvals ==> exists l :: l in s.logins && Answers(a, l))
    && (forall i, j :: 0 <= i < j < |s.approvals| ==> s.approvals[i].token != s.approvals[j].token)
    && (forall a :: a in s.approvals ==> a.token !in s.issued)
  }

  lemma FreshToken(c: Crypto, s: Sys, id: string, exp: int, params: Form.Values, nonce: string)
    requires Sound(c) && Inv(c, s)
    requires '|' !in nonce && forall l :: l in s.logins ==> l.nonce != nonce
    ensures forall l :: l in s.logins ==> l.token != Token(c, id, exp, params, nonce)
  {
    forall l | l in s.logins
      ensures l.token != Token(c, id, exp, params, nonce)
    {
      assert LoginSound(c, l);
      TokensDiffer(c, l.id, Unix(l.at + TTL), l.params, l.nonce, id, exp, params, nonce);
    }
  }

  /** A successful Consume answers the login that the token was issued for. */
  lemma ConsumeAnswers(c: Crypto, s: Sys, token: string, params: Form.Values, t1: Time, t2: Time)
    requires Sound(c) && Inv(c, s) && Form.Clean(params) == params && s.clock <= t2
    requires Consume(c, s.issued, token, params, t1, t2).subject.Some?
    ensures exists l :: l in s.logins &&
                        Answers(Approval(token, Consume(c, s.issued, token, params, t1, t2).subject.value, params, t2), l)
  {
    assert token in s.issued by {
      OnlyIssuedSucceeds(c, s.issued, token, params, t1, t2);
    }
    hide Sound, Consume;
    var l :| l in s.logins && l.token == token && s.issued[token] == Unix(l.at + TTL);
    assert LoginSound(c, l) && l.at <= s.clock;
    hide Inv, Unix, Token;
    ConsumeAnswersLogin(c, s.issued, l, params, t1, t2);
  }

  lemma ConsumedClaims(c: Crypto, issued: Issued, token: string, params: Form.Values, t1: Time, t2: Time)
    requires Consume(c, issued, token, params, t1, t2).subject.Some?
    ensures ParseToken(c, token).Some? && token in issued && t2 < issued[token] * SECOND
    ensures var claims := ParseToken(c, token).value;
            claims.digest == Form.ParamsDigest(c.form, params) && Consume(c, issued, token, params, t1, t2).subject == Some(claims.id)
  {
    hide ParseToken;
  }

  lemma SoundForm(c: Crypto)
    requires Sound(c)
    ensures Form.Sound(c.form)
  {
  }

  lemma ConsumeAnswersLogin(c: Crypto, issued: Issued, l: Login, params: Form.Values, t1: Time, t2: Time)
    requires Sound(c) && LoginSound(c, l) && Form.Clean(params) == params
    requires l.token in issued && issued[l.token] == Unix(l.at + TTL) && l.at <= t2
    requires Consume(c, issued, l.token, params, t1, t2).subject.Some?
    ensures Answers(Approval(l.token, Consume(c, issued, l.token, params, t1, t2).subject.value, params, t2), l)
  {
    hide Sound, Consume, Token, ParseToken, Unix, Form.Sound, Form.ParamsDigest;
    SoundForm(c);
    ConsumedClaims(c, issued, l.token, params, t1, t2);
    TokenRoundTrip(c, l.id, Unix(l.at + TTL), l.params, l.nonce);
    Form.DigestIdentifiesCleaned(c.form, l.params, params);
    LifetimeBounds(l.at);
  }

  /** Nothing but issued tokens went away. */
  ghost predicate Shrinks(s: Issued, t: Issued) {
    forall u :: u in t ==> u in s && t[u] == s[u]
  }

  lemma ShrinkKeepsInv(c: Crypto, s: Sys, t: Sys)
    requires Inv(c, s) && Shrinks(s.issued, t.issued) && t.logins == s.logins && t.approvals == s.approvals && s.clock <= t.clock
    ensures Inv(c, t)
  {
  }

  lemma IssueKeepsInv(c: Crypto, s: Sys, t: Sys, l: Login)
    requires Inv(c, s) && LoginSound(c, l) && forall m :: m in s.logins ==> m.token != l.token
    requires t.logins == s.logins + [l] && t.approvals == s.approvals
    requires t.issued == s.issued[l.token := Unix(l.at + TTL)] && l.at <= t.clock && s.clock <= t.clock
    ensures Inv(c, t)
  {
    hide LoginSound;
    assert l in t.logins && forall m :: m in s.logins ==> m in t.logins;
    forall a | a in t.approvals
      ensures a.token !in t.issued && exists m :: m in t.logins && Answers(a, m)
    {
      var m :| m in s.logins && Answers(a, m);
    }
    forall u | u in t.issued
      ensures exists m :: m in t.logins && m.token == u && t.issued[u] == Unix(m.at + TTL)
    {
      if u != l.token {
        var m :| m in s.logins && m.token == u && s.issued[u] == Unix(m.at + TTL);
      }
    }
  }

  lemma ApprovalKeepsInv(c: Crypto, s: Sys, t: Sys, a: Approval)
    requires Inv(c, s) && Shrinks(s.issued, t.issued) && t.logins == s.logins && t.approvals == s.approvals + [a] && s.clock <= t.clock
    requires a.token in s.issued && a.token !in t.issued && exists l :: l in s.logins && Answers(a, l)
    ensures Inv(c, t)
  {
    hide LoginSound;
  }

  lemma ConsumeShrinks(c: Crypto, issued: Issued, token: string, params: Form.Values, t1: Time, t2: Time)
    ensures var r := Consume(c, issued, token, params, t1, t2);
            && Shrinks(issued, r.issued)
            && (r.subject.Some? ==> token in issued && token !in r.issued)
  {
  }

  lemma LoginKeepsInv(c: Crypto, s: Sys, form: Form.Values, env: Env)
    requires Sound(c) && Inv(c, s) && !BadNonce(s, env) && Get(form, "action") == "login"
    ensures Inv(c, Step(c, s, Post(form, env)))
  {
    hide Inv, Sound, Token, Form.Clean;
    var t := Step(c, s, Post(form, env));
    if t.logins != s.logins {
      FreshToken(c, s, env.subject.value, Unix(s.clock - env.pause + TTL), Form.Clean(form), env.nonce.value);
      Form.CleanIsStable(form);
      IssueKeepsInv(c, s, t, t.logins[|s.logins|]);
    } else {
      ShrinkKeepsInv(c, s, t);
    }
  }

  lemma ApproveKeepsInv(c: Crypto, s: Sys, form: Form.Values, env: Env)
    requires Sound(c) && Inv(c, s) && Get(form, "action") == "approve"
    ensures Inv(c, Step(c, s, Post(form, env)))
  {
    var t := Step(c, s, Post(form, env));
    var params, token := Form.Clean(form), Get(form, "approval_token");
    Form.CleanIsStable(form);
    ConsumeShrinks(c, s.issued, token, params, s.clock - env.pause, s.clock);
    hide Inv, Sound, Consume, Form.Clean;
    if t.approvals != s.approvals {
      ConsumeAnswers(c, s, token, params, s.clock - env.pause, s.clock);
      ApprovalKeepsInv(c, s, t, t.approvals[|s.approvals|]);
    } else if t != s {
      ShrinkKeepsInv(c, s, t);
    }
  }

  lemma OtherKeepsInv(c: Crypto, s: Sys, form: Form.Values, env: Env)
    requires Inv(c, s) && Get(form, "action") != "login" && Get(form, "action") != "approve"
    ensures Inv(c, Step(c, s, Post(form, env)))
  {
    ConsumeShrinks(c, s.issued, Get(form, "approval_token"), Form.Clean(form), s.clock - env.pause, s.clock);
    hide Inv, Consume, Form.Clean;
    ShrinkKeepsInv(c, s, Step(c, s, Post(form, env)));
  }

  lemma {:induction false} RunKeepsInv(c: Crypto, s: Sys, actions: seq<Action>)
    requires Sound(c) && Inv(c, s)
    ensures Inv(c, Run(c, s, actions))
    decreases |actions|
  {
    if actions != [] {
      StepKeepsInv(c, s, actions[0]);
      hide Inv, Step, Sound;
      RunKeepsInv(c, Step(c, s, actions[0]), actions[1..]);
    }
  }

  lemma StepKeepsInv(c: Crypto, s: Sys, a: Action)
    requires Sound(c) && Inv(c, s)
    ensures Inv(c, Step(c, s, a))
  {
    hide Inv, Sound, HandlePost;
    if a.Tick? {
      ShrinkKeepsInv(c, s, Step(c, s, a));
    } else if !BadNonce(s, a.env) {
      if Get(a.form, "action") == "login" {
        LoginKeepsInv(c, s, a.form, a.env);
      } else if Get(a.form, "action") == "approve" {
        ApproveKeepsInv(c, s, a.form, a.env);
      } else {
        OtherKeepsInv(c, s, a.form, a.env);
      }
    }
  }

  // ---------------------------------------------------------------------------------------------
  // Main results
  // ---------------------------------------------------------------------------------------------

  /**
   Every authorization response that "approve" produced answers a login of its own: one with the
   same token, subject and cleaned parameters, earlier by less than five minutes, and no other approval
   answers it.
   */
  lemma ApprovalsAnswerDistinctLogins(c: Crypto, s0: Sys, actions: seq<Action>)
    requires Sound(c) && Init(s0)
    ensures var s := Run(c, s0, actions);
            && (forall a :: a in s.approvals ==> exists l :: l in s.logins && Answers(a, l))
            && (forall i1, i2, l :: 0 <= i1 < i2 < |s.approvals| && l in s.logins ==>
                                      !(Answers(s.approvals[i1], l) && Answers(s.approvals[i2], l)))
  {
    RunKeepsInv(c, s0, actions);
  }

  /** The token can never be consumed again. */
  ghost predicate Dead(c: Crypto, s: Sys, token: string) {
    (token !in s.issued || ParseToken(c, token).None?) && exists l :: l in s.logins && l.token == token
  }

  lemma DeadTokenIsNotConsumed(c: Crypto, s: Sys, token: string, params: Form.Values, t1: Time, t2: Time)
    requires Dead(c, s, token)
    ensures Consume(c, s.issued, token, params, t1, t2).subject.None?
  {
  }

  lemma DeadStays(c: Crypto, s: Sys, t: Sys, token: string)
    requires Dead(c, s, token) && s.logins <= t.logins && (token in t.issued ==> token in s.issued)
    ensures Dead(c, t, token)
  {
  }

  lemma LoginKeepsDead(c: Crypto, s: Sys, form: Form.Values, env: Env, token: string)
    requires Sound(c) && Inv(c, s) && Dead(c, s, token) && !BadNonce(s, env) && Get(form, "action") == "login"
    ensures Dead(c, Step(c, s, Post(form, env)), token) && Step(c, s, Post(form, env)).approvals == s.approvals
  {
    hide Inv, Sound, Token, Form.Clean, ParseToken;
    var t := Step(c, s, Post(form, env));
    var l :| l in s.logins && l.token == token;
    if t.logins != s.logins {
      FreshToken(c, s, env.subject.value, Unix(s.clock - env.pause + TTL), Form.Clean(form), env.nonce.value);
    }
    DeadStays(c, s, t, token);
  }

  lemma StepKeepsDead(c: Crypto, s: Sys, a: Action, token: string)
    requires Sound(c) && Inv(c, s) && Dead(c, s, token)
    ensures Dead(c, Step(c, s, a), token)
    ensures var t := Step(c, s, a);
            forall i :: |s.approvals| <= i < |t.approvals| ==> t.approvals[i].token != token
  {
    hide Inv, Sound, Consume, Form.Clean, Dead;
    var t := Step(c, s, a);
    if a.Post? && !BadNonce(s, a.env) {
      if Get(a.form, "action") == "login" {
        LoginKeepsDead(c, s, a.form, a.env, token);
      } else {
        var presented, params := Get(a.form, "approval_token"), Form.Clean(a.form);
        ConsumeShrinks(c, s.issued, presented, params, s.clock - a.env.pause, s.clock);
        DeadTokenIsNotConsumed(c, s, token, params, s.clock - a.env.pause, s.clock);
        DeadStays(c, s, t, token);
      }
    } else {
      DeadStays(c, s, t, token);
    }
  }

  lemma {:induction false} RunKeepsDead(c: Crypto, s: Sys, actions: seq<Action>, token: string)
    requires Sound(c) && Inv(c, s) && Dead(c, s, token)
    ensures var t := Run(c, s, actions);
            forall i :: |s.approvals| <= i < |t.approvals| ==> t.approvals[i].token != token
    decreases |actions|
  {
    if actions != [] {
      StepKeepsInv(c, s, actions[0]);
      StepKeepsDead(c, s, actions[0], token);
      ApprovalsOnlyGrow(c, s, actions[0]);
      ApprovalsOnlyGrowOverRuns(c, Step(c, s, actions[0]), actions[1..]);
      hide Inv, Step, Sound, Dead;
      RunKeepsDead(c, Step(c, s, actions[0]), actions[1..], token);
    }
  }

  lemma ApprovalsOnlyGrow(c: Crypto, s: Sys, a: Action)
    ensures s.approvals <= Step(c, s, a).approvals
  {
  }

  lemma {:induction false} ApprovalsOnlyGrowOverRuns(c: Crypto, s: Sys, actions: seq<Action>)
    ensures s.approvals <= Run(c, s, actions).approvals
    decreases |actions|
  {
    if actions != [] {
      ApprovalsOnlyGrow(c, s, actions[0]);
      ApprovalsOnlyGrowOverRuns(c, Step(c, s, actions[0]), actions[1..]);
    }
  }

  /** After a "deny" that presents an issued token with its parameters, no approve with that token succeeds. */
  lemma DenyIsFinal(c: Crypto, s0: Sys, before: seq<Action>, form: Form.Values, env: Env, after: seq<Action>, l: Login)
    requires Sound(c) && Init(s0)
    requires Get(form, "action") == "deny" && env.requestOk && env.resourcesOk
    requires var s := Run(c, s0, before);
             l in s.logins && Get(form, "approval_token") == l.token && Form.Clean(form) == l.params && !BadNonce(s, env)
    ensures var s := Step(c, Run(c, s0, before), Post(form, env));
            var t := Run(c, s, after);
            forall i :: |s.approvals| <= i < |t.approvals| ==> t.approvals[i].token != l.token
  {
    RunKeepsInv(c, s0, before);
    var s := Run(c, s0, before);
    StepKeepsInv(c, s, Post(form, env));
    DenyKills(c, s, form, env, l);
    hide Inv, Sound, Step, Dead;
    RunKeepsDead(c, Step(c, s, Post(form, env)), after, l.token);
  }

  lemma DenyKills(c: Crypto, s: Sys, form: Form.Values, env: Env, l: Login)
    requires Sound(c) && Inv(c, s) && l in s.logins && !BadNonce(s, env)
    requires Get(form, "action") == "deny" && env.requestOk && env.resourcesOk
    requires Get(form, "approval_token") == l.token && Form.Clean(form) == l.params
    ensures Dead(c, Step(c, s, Post(form, env)), l.token)
  {
    assert LoginSound(c, l);
    ConsumeKills(c, s.issued, l, s.clock - env.pause, s.clock);
    hide Inv, Sound, Consume, Form.Clean;
    assert Step(c, s, Post(form, env)).logins == s.logins;
  }

  lemma ConsumeKills(c: Crypto, issued: Issued, l: Login, t1: Time, t2: Time)
    requires Sound(c) && LoginSound(c, l)
    ensures l.token in Consume(c, issued, l.token, l.params, t1, t2).issued ==> ParseToken(c, l.token).None?
  {
    TokenRoundTrip(c, l.id, Unix(l.at + TTL), l.params, l.nonce);
  }

  /**
   The way through: the consent page that a login renders, posted back as "approve" in time and
   while its token is unused, is completed for that login's subject. It does not matter in which order
   the page lists its fields, nor which stripped fields the browser adds.
   */
  lemma LoginThenApprove(c: Crypto, issued: Issued, form: Form.Values, env: Env, now: Time,
                         order: seq<string>, posted: seq<Form.Pair>, current: Issued, env2: Env, later: Time)
    requires Sound(c) && Get(form, "action") == "login" && InRange(now)
    requires HandlePost(c, issued, form, env, now).page.ConsentPage?
    requires '|' !in env.subject.value && '|' !in env.nonce.value
    requires var page := Form.Clean(form)["approval_token" := [HandlePost(c, issued, form, env, now).page.token]];
             Form.Enumerates(order, page) && Form.Kept(posted) == Form.Kept(Form.Inputs(page, order))
    requires var fields, token := Form.FromFields(posted), HandlePost(c, issued, form, env, now).page.token;
             && Get(fields, "action") == "approve" && Get(fields, "approval_token") == token
             && token in current && current[token] == HandlePost(c, issued, form, env, now).issued[token]
    requires env2.requestOk && env2.resourcesOk && later + env2.pause < Unix(now + TTL) * SECOND
    ensures HandlePost(c, current, Form.FromFields(posted), env2, later) ==
            Handled(current - {HandlePost(c, issued, form, env, now).page.token}, CompleteApprove(env2, env.subject.value))
  {
    hide Sound, Token, Consume, Form.Clean, Form.FromFields, Form.Kept, Form.Enumerates, Form.Inputs, HandlePost;
    var h, params := HandlePost(c, issued, form, env, now), Form.Clean(form);
    SamePageSameParams(form, h.page.token, order, posted);
    ConsentPageToken(c, issued, form, env, now);
    ConsumeInTime(c, current, env.subject.value, Unix(now + TTL), params, env.nonce.value, later, later + env2.pause);
    PostedApprove(c, current, Form.FromFields(posted), env2, later);
  }

  lemma ConsentPageToken(c: Crypto, issued: Issued, form: Form.Values, env: Env, now: Time)
    requires Get(form, "action") == "login" && HandlePost(c, issued, form, env, now).page.ConsentPage?
    ensures var h := HandlePost(c, issued, form, env, now);
            && env.subject.Some? && env.nonce.Some?
            && h.page.token == Token(c, env.subject.value, Unix(now + TTL), Form.Clean(form), env.nonce.value)
            && h.issued == issued[h.page.token := Unix(now + TTL)]
  {
  }

  lemma PostedApprove(c: Crypto, issued: Issued, form: Form.Values, env: Env, now: Time)
    requires Get(form, "action") == "approve" && env.requestOk && env.resourcesOk
    ensures HandlePost(c, issued, form, env, now) == HandleApprove(c, issued, form, env, now)
  {
  }

  lemma SamePageSameParams(form: Form.Values, token: string, order: seq<string>, posted: seq<Form.Pair>)
    requires var page := Form.Clean(form)["approval_token" := [token]];
             Form.Enumerates(order, page) && Form.Kept(posted) == Form.Kept(Form.Inputs(page, order))
    ensures Form.Clean(Form.FromFields(posted)) == Form.Clean(form)
  {
    var page := Form.Clean(form)["approval_token" := [token]];
    Form.FormRoundTrip(page, order, posted);
    Form.CleanIsStable(form);
    assert Form.Clean(page) == Form.Clean(Form.Clean(form));
  }

  lemma ConsumeInTime(c: Crypto, issued: Issued, id: string, exp: int, params: Form.Values, nonce: string, t1: Time, t2: Time)
    requires Sound(c) && '|' !in nonce && '|' !in id && IsInt64(exp) && t1 <= t2 < exp * SECOND
    requires var token := Token(c, id, exp, params, nonce); token in issued && issued[token] == exp
    ensures Consume(c, issued, Token(c, id, exp, params, nonce), params, t1, t2) ==
            Consumed(issued - {Token(c, id, exp, params, nonce)}, Some(id))
  {
    TokenRoundTrip(c, id, exp, params, nonce);
  }

  // ---------------------------------------------------------------------------------------------
  // Every page of a run
  // ---------------------------------------------------------------------------------------------

  /** An authorization response in the log has its approval, or was a login that may skip consent. */
  ghost predicate AnswerSound(s: Sys, a: Answer) {
    && (a.page.Authorized? ==>
          && a.env.requestOk && a.env.resourcesOk && a.env.grantOk
          && ((Get(a.form, "action") == "login" && Admitted(a.form, a.env) && a.env.allowsSkip && a.env.subject == Some(a.page.id)) ||
              (Get(a.form, "action") == "approve" &&
               exists p :: p in s.approvals && p.token == Get(a.form, "approval_token") && p.id == a.page.id && p.params == Form.Clean(a.form))))
    && (a.page.ConsentPage? ==>
          && a.env.requestOk && a.env.resourcesOk && Get(a.form, "action") == "login" && Admitted(a.form, a.env)
          && !a.env.allowsSkip && a.env.challenge.NoChallenge?
          && exists l :: l in s.logins && l.token == a.page.token && a.env.subject == Some(l.id) && l.params == Form.Clean(a.form))
  }

  ghost predicate AnswersSound(s: Sys) {
    forall a :: a in s.answers ==> AnswerSound(s, a)
  }

  lemma NewAnswerIsSound(c: Crypto, s: Sys, form: Form.Values, env: Env)
    requires !BadNonce(s, env)
    ensures AnswerSound(Step(c, s, Post(form, env)), Answer(form, env, HandlePost(c, s.issued, form, env, s.clock - env.pause).page))
  {
    var start := s.clock - env.pause;
    var h, t := HandlePost(c, s.issued, form, env, start), Step(c, s, Post(form, env));
    AuthorizedIff(c, s.issued, form, env, start);
    ConsentPageIff(c, s.issued, form, env, start);
    hide HandlePost, Consume, Form.Clean;
    if h.page.Authorized? && Get(form, "action") == "approve" {
      assert t.approvals[|s.approvals|] in t.approvals;
    }
    if h.page.ConsentPage? {
      assert t.logins[|s.logins|] in t.logins;
    }
  }

  lemma AnswerStays(s: Sys, t: Sys, a: Answer)
    requires AnswerSound(s, a) && s.approvals <= t.approvals && s.logins <= t.logins
    ensures AnswerSound(t, a)
  {
    assert forall p :: p in s.approvals ==> p in t.approvals;
    assert forall l :: l in s.logins ==> l in t.logins;
    hide Form.Clean, Get, Admitted;
  }

  lemma SameAnswers(s: Sys, t: Sys)
    requires AnswersSound(s) && t.approvals == s.approvals && t.logins == s.logins && t.answers == s.answers
    ensures AnswersSound(t)
  {
    hide AnswerSound;
    forall x | x in t.answers
      ensures AnswerSound(t, x)
    {
      AnswerStays(s, t, x);
    }
  }

  lemma OneMoreAnswer(s: Sys, t: Sys, a: Answer)
    requires AnswersSound(s) && s.approvals <= t.approvals && s.logins <= t.logins
    requires t.answers == s.answers + [a] && AnswerSound(t, a)
    ensures AnswersSound(t)
  {
    hide AnswerSound;
    forall x | x in t.answers
      ensures AnswerSound(t, x)
    {
      if x in s.answers {
        AnswerStays(s, t, x);
      }
    }
  }

  lemma StepKeepsAnswers(c: Crypto, s: Sys, a: Action)
    requires AnswersSound(s)
    ensures AnswersSound(Step(c, s, a))
  {
    hide AnswersSound, AnswerSound, HandlePost;
    if a.Post? && !BadNonce(s, a.env) {
      NewAnswerIsSound(c, s, a.form, a.env);
      OneMoreAnswer(s, Step(c, s, a), Answer(a.form, a.env, HandlePost(c, s.issued, a.form, a.env, s.clock - a.env.pause).page));
    } else {
      SameAnswers(s, Step(c, s, a));
    }
  }

  lemma {:induction false} RunKeepsAnswers(c: Crypto, s: Sys, actions: seq<Action>)
    requires AnswersSound(s)
    ensures AnswersSound(Run(c, s, actions))
    decreases |actions|
  {
    hide AnswersSound, Step;
    if actions != [] {
      StepKeepsAnswers(c, s, actions[0]);
      RunKeepsAnswers(c, Step(c, s, actions[0]), actions[1..]);
    }
  }

  /**
   Over every run, each authorization response was for a login that may skip consent, with both
   credentials, or is one of the approvals, which answer logins of their own; and no other POST, and so no
   "deny", ever got one.
   */
  lemma OnlyTheseAuthorize(c: Crypto, s0: Sys, actions: seq<Action>, a: Answer)
    requires Sound(c) && Init(s0) && a in Run(c, s0, actions).answers && a.page.Authorized?
    ensures a.env.requestOk && a.env.resourcesOk && a.env.grantOk
    ensures || (Get(a.form, "action") == "login" && Admitted(a.form, a.env) && a.env.allowsSkip && a.env.subject == Some(a.page.id))
            || (Get(a.form, "action") == "approve" &&
                exists l :: l in Run(c, s0, actions).logins && l.token == Get(a.form, "approval_token") &&
                            l.id == a.page.id && l.params == Form.Clean(a.form))
  {
    RunKeepsAnswers(c, s0, actions);
    ApprovalsAnswerDistinctLogins(c, s0, actions);
    hide Run, Sound, Form.Clean, Get, Admitted;
    assert AnswerSound(Run(c, s0, actions), a);
  }

  /** Over every run, each consent page came from an admitted login that may not skip it and had no challenge open. */
  lemma OnlyTheseAreAsked(c: Crypto, s0: Sys, actions: seq<Action>, a: Answer)
    requires Init(s0) && a in Run(c, s0, actions).answers && a.page.ConsentPage?
    ensures a.env.requestOk && a.env.resourcesOk && Get(a.form, "action") == "login" && Admitted(a.form, a.env)
    ensures !a.env.allowsSkip && a.env.challenge.NoChallenge?
    ensures exists l :: l in Run(c, s0, actions).logins && l.token == a.page.token && a.env.subject == Some(l.id)
  {
    RunKeepsAnswers(c, s0, actions);
    hide Run, Form.Clean, Get, Admitted;
    assert AnswerSound(Run(c, s0, actions), a);
  }
}
