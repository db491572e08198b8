/** How the handlers fit together across requests: a token from `POST /login`
    presented to `PUT /update`. */
module Scenarios {
  import opened Common
  import opened External
  import opened UserModel
  import opened Http
  import opened AccessGuard
  import opened Auth
  import opened RatesModel
  import opened RatesRoutes

  /** jsonwebtoken gives back the payload it signed with the same secret. */
  ghost predicate TokensRoundTrip(env: Env, c: Claims)
  {
    env.verify(env.sign(c, env.jwtSecret, "3d"), env.jwtSecret) == Some(c)
  }

  /** The token a user's successful login hands out, sent back as
      `Bearer <token>`, is accepted by the admin gate exactly when the stored
      role is Admin; a plain user's token is refused with 403 and the rates
      stay as they were, an admin's token reaches the update handler. */
  lemma {:induction false} LoginTokenAtRatesUpdate(users: map<string, User>, login: LoginBody, env: Env,
                                                   docs: seq<Rates>, body: RatesBody, now: int, fault: bool)
    requires LoginOutcome(users, login, env, false).status == 200
    requires TokensRoundTrip(env, TokenClaims(users[login.mobileNumber]))
    requires var t := LoginOutcome(users, login, env, false).body.accessToken; ' ' !in t && t != ""
    ensures var u := users[login.mobileNumber];
      var header := Some("Bearer " + LoginOutcome(users, login, env, false).body.accessToken);
      && (u.role == UserRole ==> PutOutcome(header, env, docs, body, now, fault) == (docs, Response(403, Text(NotAllowed))))
      && (u.role == AdminRole ==> PutOutcome(header, env, docs, body, now, fault) == UpdateOutcome(docs, body, now, fault))
  {
    var u := users[login.mobileNumber];
    var t := LoginOutcome(users, login, env, false).body.accessToken;
    assert t == env.sign(TokenClaims(u), env.jwtSecret, "3d");
    assert env.verify(t, env.jwtSecret) == Some(TokenClaims(u));
    assert ' ' !in "Bearer";
    assert "Bearer" + " " == "Bearer ";
    BearerHeader("Bearer", t, env);
    assert Authenticate(Some("Bearer " + t), env) == Next(TokenClaims(u));
  }
}
