/**
 * Session tokens issued by the authentication routes, presented to the bearer-token gate.
 *
 * The routes sign with `JWT_SECRET_KEY || "your_secret"` and the gate verifies with
 * `JWT_SECRET_KEY || "your-secret-key"`: the two keys agree exactly when the variable is
 * set to a non-empty value.
 */
module Sessions {
  import opened Wrappers
  import AuthFlow
  import AuthMiddleware

  /**
   * What the model takes from jsonwebtoken: `encode` is the non-empty compact string of a
   * signed token, and `verify` accepts such a string only under the key it was signed with,
   * decoding the id and email it was signed over.
   */
  ghost predicate Jwt(encode: AuthFlow.Token -> string, verify: (string, string) -> Option<AuthMiddleware.Payload>) {
    (forall t: AuthFlow.Token :: encode(t) != "") &&
    (forall t: AuthFlow.Token, k: string :: verify(encode(t), k).Some? ==>
       k == t.key && verify(encode(t), k).value.id == t.claim.id && verify(encode(t), k).value.email == t.claim.email)
  }

  /** The signing key of the routes and the verification key of the gate. */
  lemma KeysAgreeOnlyWhenConfigured(envVar: Option<string>)
    ensures AuthFlow.SecretKey(envVar) == AuthMiddleware.SecretKey(envVar) <==> AuthFlow.Truthy(envVar)
  {
  }

  /**
   * With `JWT_SECRET_KEY` unset or empty, no session token the routes issue gets through the
   * gate: every one is refused as invalid.
   */
  lemma UnconfiguredKeyRefusesEverySession(encode: AuthFlow.Token -> string,
                                           verify: (string, string) -> Option<AuthMiddleware.Payload>,
                                           env: AuthFlow.Env, envVar: Option<string>, user: Option<AuthFlow.User>)
    requires Jwt(encode, verify)
    requires !AuthFlow.Truthy(envVar) && env.secretKey == AuthFlow.SecretKey(envVar)
    ensures var t := AuthFlow.Sign(env, user);
            AuthMiddleware.Gate(Some(AuthMiddleware.BearerPrefix + encode(t)), AuthMiddleware.SecretKey(envVar), verify)
              == AuthMiddleware.Rejected(401, AuthMiddleware.MsgInvalidToken)
  {
    var t := AuthFlow.Sign(env, user);
    KeysAgreeOnlyWhenConfigured(envVar);
    assert encode(t) != "";
    AuthMiddleware.BearerHeaderVerified(encode(t), AuthMiddleware.SecretKey(envVar), verify);
  }

  /**
   * With the key configured, the session a social login answers is admitted by the gate
   * (until jsonwebtoken declares it expired), and `req.user` is the id and email of the
   * user the login found or created.
   */
  lemma SocialSessionPassesGate(encode: AuthFlow.Token -> string,
                                verify: (string, string) -> Option<AuthMiddleware.Payload>,
                                env: AuthFlow.Env, envVar: Option<string>, s: AuthFlow.Store,
                                e: string, name: Option<string>)
    requires Jwt(encode, verify)
    requires AuthFlow.Truthy(envVar) && env.secretKey == AuthFlow.SecretKey(envVar)
    requires AuthFlow.Valid(s) && (e in s.users || name.Some?)
    requires var o := AuthFlow.SocialLogin(env, s, Some(e), name);
             o.response.body.SessionBody? &&
             verify(encode(o.response.body.token), env.secretKey).Some?
    ensures var o := AuthFlow.SocialLogin(env, s, Some(e), name);
            e in o.store.users &&
            AuthMiddleware.Gate(Some(AuthMiddleware.BearerPrefix + encode(o.response.body.token)),
                                AuthMiddleware.SecretKey(envVar), verify)
              == AuthMiddleware.Admitted(AuthMiddleware.RequestUser(Some(o.store.users[e].id), Some(e)))
  {
    var o := AuthFlow.SocialLogin(env, s, Some(e), name);
    assert AuthFlow.Valid(o.store);
    var t := o.response.body.token;
    assert t == AuthFlow.Sign(env, Some(o.store.users[e]));
    assert encode(t) != "";
    AuthMiddleware.BearerHeaderVerified(encode(t), AuthMiddleware.SecretKey(envVar), verify);
  }
}
