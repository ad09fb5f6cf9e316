/** Refresh-token rotation, logout and password reset, each service method one step. */
module RefreshTokens {
  /** Tokens, users and families are only compared for equality; hashes are taken to be injective.  Times are in ms. */
  type Token = nat
  type UserId = nat

  datatype TokenRow = TokenRow(userId: UserId, family: nat, expiresAt: int, revoked: bool)

  datatype ResetRow = ResetRow(email: string, expiresAt: int, used: bool)

  datatype State = State(
    tokens: map<Token, TokenRow>,
    resets: map<Token, ResetRow>,
    users: map<string, UserId>,
    now: int,
    issued: set<Token>,           // every refresh token ever handed out
    accepted: seq<Token>)         // every refresh token a refresh call has accepted

  const TOKEN_LIFETIME := 30 * 24 * 60 * 60 * 1000
  const RESET_LIFETIME := 60 * 60 * 1000

  datatype Event =
    | Login(userId: UserId, token: Token, family: nat)
    | Refresh(token: Token, next: Token, family: nat)
    | Logout(token: Token)
    | ForgotPassword(email: string, reset: Token)
    | ResetPassword(reset: Token)
    | CleanUp                     // the daily job that deletes expired tokens
    | Wait(ms: nat)

  /** Random tokens are fresh. */
  predicate Enabled(s: State, e: Event) {
    match e
    case Login(_, token, _) => token !in s.issued
    case Refresh(_, next, _) => next !in s.issued
    case ForgotPassword(_, reset) => reset !in s.resets
    case _ => true
  }

  predicate Accepts(s: State, token: Token) {
    token in s.tokens && !s.tokens[token].revoked && s.tokens[token].expiresAt >= s.now
  }

  function Issue(s: State, userId: UserId, token: Token, family: nat): State {
    s.(tokens := s.tokens[token := TokenRow(userId, family, s.now + TOKEN_LIFETIME, false)],
       issued := s.issued + {token})
  }

  function RevokeFamily(tokens: map<Token, TokenRow>, family: nat): map<Token, TokenRow> {
    map t | t in tokens :: if tokens[t].family == family then tokens[t].(revoked := true) else tokens[t]
  }

  function RevokeUser(tokens: map<Token, TokenRow>, userId: UserId): map<Token, TokenRow> {
    map t | t in tokens :: if tokens[t].userId == userId then tokens[t].(revoked := true) else tokens[t]
  }

  predicate CanReset(s: State, reset: Token) {
    && reset in s.resets && !s.resets[reset].used && s.resets[reset].expiresAt >= s.now
    && s.resets[reset].email in s.users
  }

  function Apply(s: State, e: Event): State
    requires Enabled(s, e)
  {
    match e
    case Login(userId, token, family) => Issue(s, userId, token, family)
    case Refresh(token, next, family) =>
      if Accepts(s, token) then
        var row := s.tokens[token];
        Issue(s.(tokens := s.tokens[token := row.(revoked := true)], accepted := s.accepted + [token]),
              row.userId, next, family)
      else if token in s.tokens then s.(tokens := RevokeFamily(s.tokens, s.tokens[token].family))
      else s
    case Logout(token) =>
      if token in s.tokens then s.(tokens := s.tokens[token := s.tokens[token].(revoked := true)]) else s
    case ForgotPassword(email, reset) =>
      if email in s.users then s.(resets := s.resets[reset := ResetRow(email, s.now + RESET_LIFETIME, false)]) else s
    case ResetPassword(reset) =>
      if CanReset(s, reset) then
        s.(resets := s.resets[reset := s.resets[reset].(used := true)],
           tokens := RevokeUser(s.tokens, s.users[s.resets[reset].email]))
      else s
    case CleanUp => s.(tokens := map t | t in s.tokens && s.tokens[t].expiresAt >= s.now :: s.tokens[t])
    case Wait(ms) => s.(now := s.now + ms)
  }

  predicate Feasible(s: State, run: seq<Event>)
    decreases |run|
  {
    run == [] || (Enabled(s, run[0]) && Feasible(Apply(s, run[0]), run[1..]))
  }

  function Final(s: State, run: seq<Event>): State
    requires Feasible(s, run)
    decreases |run|
  {
    if run == [] then s else Final(Apply(s, run[0]), run[1..])
  }

  class AuthService {
    var tokens: map<Token, TokenRow>
    var resets: map<Token, ResetRow>
    var users: map<string, UserId>
    var now: int
    ghost var issued: set<Token>
    ghost var accepted: seq<Token>

    ghost function View(): State
      reads this
    {
      State(tokens, resets, users, now, issued, accepted)
    }

    constructor (users: map<string, UserId>, now: int)
      ensures View() == State(map[], map[], users, now, {}, [])
    {
      tokens, resets, this.users, this.now, issued, accepted := map[], map[], users, now, {}, [];
    }

    method IssueTokens(userId: UserId, token: Token, family: nat)
      requires token !in issued
      modifies this`tokens, this`issued
      ensures View() == Issue(old(View()), userId, token, family)
      ensures tokens == old(tokens)[token := TokenRow(userId, family, now + 2_592_000_000, false)]
    {
      tokens := tokens[token := TokenRow(userId, family, now + TOKEN_LIFETIME, false)];
      issued := issued + {token};
    }

    method RefreshToken(token: Token, next: Token, family: nat) returns (ok: bool)
      requires next !in issued
      modifies this
      ensures ok <==> token in old(tokens) && !old(tokens)[token].revoked && old(tokens)[token].expiresAt >= now
      ensures View() == Apply(old(View()), Refresh(token, next, family))
      ensures ok ==> var row := old(tokens)[token];
        tokens == old(tokens)[token := row.(revoked := true)]
                             [next := TokenRow(row.userId, family, now + 2_592_000_000, false)]
      ensures !ok ==> tokens.Keys == old(tokens).Keys && forall t :: t in tokens ==>
        tokens[t] == if token in old(tokens) && old(tokens)[t].family == old(tokens)[token].family
                     then old(tokens)[t].(revoked := true) else old(tokens)[t]
    {
      if token !in tokens { return false; }
      var stored := tokens[token];
      if stored.revoked || stored.expiresAt < now {
        tokens := map t | t in tokens ::
          if tokens[t].family == stored.family then tokens[t].(revoked := true) else tokens[t];
        return false;
      }
      tokens := tokens[token := stored.(revoked := true)];
      accepted := accepted + [token];
      IssueTokens(stored.userId, next, family);
      ok := true;
    }

    method LogOut(token: Token)
      modifies this`tokens
      ensures View() == Apply(old(View()), Logout(token))
      ensures tokens.Keys == old(tokens).Keys && forall t :: t in tokens ==>
        tokens[t] == if t == token then old(tokens)[t].(revoked := true) else old(tokens)[t]
    {
      if token in tokens && !tokens[token].revoked { tokens := tokens[token := tokens[token].(revoked := true)]; }
    }

    method ResetUserPassword(reset: Token) returns (ok: bool)
      modifies this`tokens, this`resets
      ensures ok <==> reset in old(resets) && !old(resets)[reset].used && old(resets)[reset].expiresAt >= now
                      && old(resets)[reset].email in users
      ensures View() == Apply(old(View()), ResetPassword(reset))
      ensures ok ==> resets == old(resets)[reset := old(resets)[reset].(used := true)]
      ensures tokens.Keys == old(tokens).Keys && forall t :: t in tokens ==>
        tokens[t] == if ok && old(tokens)[t].userId == users[old(resets)[reset].email]
                     then old(tokens)[t].(revoked := true) else old(tokens)[t]
    {
      if reset !in resets || resets[reset].used || resets[reset].expiresAt < now { return false; }
      if resets[reset].email !in users { return false; }
      var user := users[resets[reset].email];
      resets := resets[reset := resets[reset].(used := true)];
      tokens := map t | t in tokens :: if tokens[t].userId == user then tokens[t].(revoked := true) else tokens[t];
      ok := true;
    }
  }

  // ---- a dead token stays dead ----

  /** Handed out once, and now revoked or deleted. */
  predicate Dead(s: State, token: Token) {
    token in s.issued && (token in s.tokens ==> s.tokens[token].revoked)
  }

  lemma DeadStep(s: State, e: Event, token: Token)
    requires Enabled(s, e) && Dead(s, token)
    ensures Dead(Apply(s, e), token)
    ensures Uses(Apply(s, e).accepted, token) == Uses(s.accepted, token)
  {
    if e.Refresh? && Accepts(s, e.token) { UsesAppend(s.accepted, e.token, token); }
  }

  /** How often a token was accepted. */
  function Uses(accepted: seq<Token>, token: Token): nat {
    if accepted == [] then 0 else (if accepted[0] == token then 1 else 0) + Uses(accepted[1..], token)
  }

  lemma {:induction false} UsesAppend(accepted: seq<Token>, last: Token, token: Token)
    ensures Uses(accepted + [last], token) == Uses(accepted, token) + (if last == token then 1 else 0)
  {
    if accepted == [] {
      assert [last][1..] == [];
    } else {
      assert (accepted + [last])[1..] == accepted[1..] + [last];
      UsesAppend(accepted[1..], last, token);
    }
  }

  /** Whatever happens next, a dead token is never accepted again. */
  lemma {:induction false} NeverAcceptedAgain(s: State, run: seq<Event>, token: Token)
    requires Feasible(s, run) && Dead(s, token)
    ensures Dead(Final(s, run), token) && !Accepts(Final(s, run), token)
    ensures Uses(Final(s, run).accepted, token) == Uses(s.accepted, token)
    decreases |run|
  {
    if run != [] {
      DeadStep(s, run[0], token);
      NeverAcceptedAgain(Apply(s, run[0]), run[1..], token);
    }
  }

  // ---- single use ----

  predicate UseInv(s: State, token: Token) {
    && (token in s.tokens ==> token in s.issued)
    && (Uses(s.accepted, token) > 0 ==> Dead(s, token))
    && Uses(s.accepted, token) <= 1
  }

  lemma {:induction false} UseAlong(s: State, run: seq<Event>, token: Token)
    requires Feasible(s, run) && UseInv(s, token)
    ensures UseInv(Final(s, run), token)
    decreases |run|
  {
    if run != [] {
      if Dead(s, token) {
        DeadStep(s, run[0], token);
      } else if run[0].Refresh? && Accepts(s, run[0].token) {
        UsesAppend(s.accepted, run[0].token, token);
      }
      UseAlong(Apply(s, run[0]), run[1..], token);
    }
  }

  predicate IsEmpty(s: State) {
    s.tokens == map[] && s.issued == {} && s.accepted == []
  }

  /** In every run a refresh token is accepted at most once. */
  lemma SingleUse(s0: State, run: seq<Event>, token: Token)
    requires IsEmpty(s0) && Feasible(s0, run)
    ensures Uses(Final(s0, run).accepted, token) <= 1
  {
    UseAlong(s0, run, token);
  }

  /** After logout of a token handed out before, no later run accepts it. */
  lemma LogoutIsFinal(s0: State, before: seq<Event>, token: Token, after: seq<Event>)
    requires IsEmpty(s0) && Feasible(s0, before) && token in Final(s0, before).issued
    requires Feasible(Apply(Final(s0, before), Logout(token)), after)
    ensures var s := Apply(Final(s0, before), Logout(token));
      !Accepts(Final(s, after), token) && Uses(Final(s, after).accepted, token) == Uses(s.accepted, token)
  {
    NeverAcceptedAgain(Apply(Final(s0, before), Logout(token)), after, token);
  }

  /** After a successful reset of a user's password, no token that user held is accepted in any later run. */
  lemma ResetIsFinal(s0: State, before: seq<Event>, reset: Token, token: Token, after: seq<Event>)
    requires IsEmpty(s0) && Feasible(s0, before)
    requires var s := Final(s0, before);
      CanReset(s, reset) && token in s.tokens && s.tokens[token].userId == s.users[s.resets[reset].email]
    requires Feasible(Apply(Final(s0, before), ResetPassword(reset)), after)
    ensures var t := Apply(Final(s0, before), ResetPassword(reset));
      !Accepts(Final(t, after), token) && Uses(Final(t, after).accepted, token) == Uses(t.accepted, token)
  {
    UseAlong(s0, before, token);
    NeverAcceptedAgain(Apply(Final(s0, before), ResetPassword(reset)), after, token);
  }

  /** After a dead token that is still stored is shown again, no later run accepts any token of its family. */
  lemma ReplayIsFinal(s0: State, before: seq<Event>, token: Token, next: Token, family: nat, other: Token,
                      after: seq<Event>)
    requires IsEmpty(s0) && Feasible(s0, before) && Enabled(Final(s0, before), Refresh(token, next, family))
    requires var s := Final(s0, before);
      token in s.tokens && !Accepts(s, token) && other in s.tokens && s.tokens[other].family == s.tokens[token].family
    requires Feasible(Apply(Final(s0, before), Refresh(token, next, family)), after)
    ensures var s := Final(s0, before); var t := Apply(s, Refresh(token, next, family));
      !Accepts(Final(t, after), other) && Uses(Final(t, after).accepted, other) == Uses(s.accepted, other)
  {
    UseAlong(s0, before, other);
    NeverAcceptedAgain(Apply(Final(s0, before), Refresh(token, next, family)), after, other);
  }

  // ---- how long tokens and links are good ----

  /** What takes a token back: its own use, a logout with it, a replay in its family, a password reset of its user. */
  predicate Revokes(s: State, e: Event, token: Token, row: TokenRow) {
    match e
    case Refresh(shown, _, _) =>
      || shown == token
      || (shown in s.tokens && (s.tokens[shown].revoked || s.tokens[shown].expiresAt < s.now)
          && s.tokens[shown].family == row.family)
    case Logout(shown) => shown == token
    case ResetPassword(reset) =>
      && reset in s.resets && !s.resets[reset].used && s.now <= s.resets[reset].expiresAt
      && s.resets[reset].email in s.users && s.users[s.resets[reset].email] == row.userId
    case _ => false
  }

  predicate RevokedIn(s: State, run: seq<Event>, token: Token, row: TokenRow)
    requires Feasible(s, run)
    decreases |run|
  {
    run != [] && (Revokes(s, run[0], token, row) || RevokedIn(Apply(s, run[0]), run[1..], token, row))
  }

  lemma {:induction false} LiveAlong(s: State, run: seq<Event>, token: Token, row: TokenRow)
    requires Feasible(s, run) && token in s.issued
    requires s.now <= row.expiresAt ==> token in s.tokens && s.tokens[token] == row && !row.revoked
    ensures Final(s, run).now >= s.now
    ensures Final(s, run).now <= row.expiresAt ==>
      (Accepts(Final(s, run), token) <==> !RevokedIn(s, run, token, row))
    decreases |run|
  {
    if run != [] {
      var t := Apply(s, run[0]);
      if Revokes(s, run[0], token, row) {
        if s.now <= row.expiresAt { NeverAcceptedAgain(t, run[1..], token); }
        NowRises(t, run[1..]);
      } else {
        LiveAlong(t, run[1..], token, row);
      }
    }
  }

  lemma {:induction false} NowRises(s: State, run: seq<Event>)
    requires Feasible(s, run)
    ensures Final(s, run).now >= s.now
    decreases |run|
  {
    if run != [] { NowRises(Apply(s, run[0]), run[1..]); }
  }

  /** While it is good a token is stored, with the time at which it expires. */
  predicate StoredUntil(s: State, token: Token, deadline: int) {
    && token in s.issued && (s.now <= deadline ==> token in s.tokens)
    && (token in s.tokens ==> s.tokens[token].expiresAt == deadline)
  }

  lemma {:induction false} StoredAlong(s: State, run: seq<Event>, token: Token, deadline: int)
    requires Feasible(s, run) && StoredUntil(s, token, deadline)
    ensures StoredUntil(Final(s, run), token, deadline)
    decreases |run|
  {
    if run != [] { StoredAlong(Apply(s, run[0]), run[1..], token, deadline); }
  }

  /** A token from a login is accepted exactly for 30 days, unless something has taken it back before. */
  lemma TokenIsGoodExactly(s: State, userId: UserId, token: Token, family: nat, run: seq<Event>)
    requires Enabled(s, Login(userId, token, family)) && Feasible(Apply(s, Login(userId, token, family)), run)
    ensures var t := Apply(s, Login(userId, token, family));
      Accepts(Final(t, run), token) <==>
        && Final(t, run).now <= s.now + 2_592_000_000
        && !RevokedIn(t, run, token, TokenRow(userId, family, s.now + 2_592_000_000, false))
  {
    var t := Apply(s, Login(userId, token, family));
    LiveAlong(t, run, token, t.tokens[token]);
    StoredAlong(t, run, token, t.tokens[token].expiresAt);
  }

  /** The daily job deletes a token of a login exactly when it is more than 30 days old, whatever came in between. */
  lemma CleanUpDeletesExpired(s: State, userId: UserId, token: Token, family: nat, run: seq<Event>)
    requires Enabled(s, Login(userId, token, family)) && Feasible(Apply(s, Login(userId, token, family)), run)
    ensures var t := Final(Apply(s, Login(userId, token, family)), run);
      token in Apply(t, CleanUp).tokens <==> t.now <= s.now + 2_592_000_000
  {
    var t := Apply(s, Login(userId, token, family));
    StoredAlong(t, run, token, t.tokens[token].expiresAt);
  }

  lemma {:induction false} LinkAlong(s: State, run: seq<Event>, reset: Token, row: ResetRow)
    requires Feasible(s, run) && reset in s.resets && s.resets[reset] == row && !row.used && row.email in s.users
    requires s.now <= row.expiresAt
    ensures CanReset(Final(s, run), reset) <==> Final(s, run).now <= row.expiresAt && ResetPassword(reset) !in run
    decreases |run|
  {
    if run != [] {
      var t := Apply(s, run[0]);
      assert ResetPassword(reset) in run <==> run[0] == ResetPassword(reset) || ResetPassword(reset) in run[1..];
      if run[0] == ResetPassword(reset) {
        ResetLinkIsSpent(t, run[1..], reset);
      } else if t.now <= row.expiresAt {
        LinkAlong(t, run[1..], reset, row);
      } else {
        NowRises(t, run[1..]);
        LinkExpired(t, run[1..], reset);
      }
    }
  }

  lemma {:induction false} LinkExpired(s: State, run: seq<Event>, reset: Token)
    requires Feasible(s, run) && reset in s.resets && s.resets[reset].expiresAt < s.now
    ensures !CanReset(Final(s, run), reset)
    decreases |run|
  {
    if run != [] { LinkExpired(Apply(s, run[0]), run[1..], reset); }
  }

  /** A reset link sent to a user works exactly for an hour, unless it has been used. */
  lemma LinkIsGoodExactly(s: State, email: string, reset: Token, run: seq<Event>)
    requires Enabled(s, ForgotPassword(email, reset)) && email in s.users
    requires Feasible(Apply(s, ForgotPassword(email, reset)), run)
    ensures var t := Final(Apply(s, ForgotPassword(email, reset)), run);
      CanReset(t, reset) <==> t.now <= s.now + 3_600_000 && ResetPassword(reset) !in run
  {
    var t := Apply(s, ForgotPassword(email, reset));
    LinkAlong(t, run, reset, t.resets[reset]);
  }

  /** A password reset link works at most once. */
  lemma ResetLinkIsSpent(s: State, run: seq<Event>, reset: Token)
    requires Feasible(s, run) && reset in s.resets && s.resets[reset].used
    ensures reset in Final(s, run).resets && !CanReset(Final(s, run), reset)
    decreases |run|
  {
    if run != [] { ResetLinkIsSpent(Apply(s, run[0]), run[1..], reset); }
  }
}
