/**
 * Properties of sequences of requests against the authentication routes: what one request
 * leaves in the store decides how the next one is answered.
 */
module AuthScenarios {
  import opened Wrappers
  import opened AuthFlow

  /**
   * A wrong code consumes the challenge: the attempt is refused, and so is the next attempt,
   * even with the code that was mailed.
   */
  lemma WrongCodeConsumesChallenge(env: Env, s: Store, e: string, wrong: Option<string>, now1: int, now2: int)
    requires e in s.otpMap && wrong != Some(s.otpMap[e].otp)
    ensures var o1 := VerifyOtp(env, s, Some(e), wrong, now1);
            var o2 := VerifyOtp(env, o1.store, Some(e), Some(s.otpMap[e].otp), now2);
            o1.response == Fail(400, MsgInvalidOtp) && o2.response == Fail(400, MsgInvalidOtp)
  {
  }

  /** Any code for an email with no pending challenge is refused. */
  lemma NoChallengeRefused(env: Env, s: Store, e: string, otp: Option<string>, now: int)
    requires e !in s.otpMap
    ensures VerifyOtp(env, s, Some(e), otp, now).response == Fail(400, MsgInvalidOtp)
  {
  }

  /**
   * A signup completed with the mailed code, no later than five minutes after it was issued,
   * creates the user with the given email and name and the hash of the given password, and
   * answers with a session for that user. If the hasher's `compare` accepts a password
   * against its own hash, the new user then passes the credential check of `/login`.
   */
  lemma SignupThenVerifyCreatesUser(env: Env, s: Store, e: string, password: string, name: string,
                                    code: int, now: int, later: int, mailOk: bool)
    requires Valid(s) && IsOtpCode(code)
    requires SignupErrors(env, Some(e), Some(password), Some(name)) == [] && e !in s.users
    requires now <= later <= now + OtpLifetime
    ensures var o1 := Signup(env, s, Some(e), Some(password), Some(name), code, now, mailOk);
            var o2 := VerifyOtp(env, o1.store, Some(e), Some(OtpString(code)), later);
            e in o2.store.users &&
            o2.store.users[e] == User(s.nextId, name, e, env.hash(password)) &&
            o2.response == SessionResponse(env, Some(o2.store.users[e])) &&
            (e != "" && env.compare(password, env.hash(password)) ==> CredentialsOk(env, o2.store, Some(e), Some(password)))
  {
  }

  /**
   * A login completed with the mailed code within five minutes answers with a session for
   * the existing user and creates no user; so every login of one user yields tokens for the
   * same id and email.
   */
  lemma LoginThenVerifyIssuesSession(env: Env, s: Store, email: Option<string>, password: Option<string>,
                                     code: int, now: int, later: int, mailOk: bool)
    requires Valid(s) && IsOtpCode(code)
    requires CredentialsOk(env, s, email, password)
    requires now <= later <= now + OtpLifetime
    ensures var o1 := Login(env, s, email, password, code, now, mailOk);
            var o2 := VerifyOtp(env, o1.store, email, Some(OtpString(code)), later);
            o2.store.users == s.users &&
            o2.response == SessionResponse(env, Some(s.users[email.value])) &&
            Sign(env, Some(s.users[email.value])).claim == Claim(Some(s.users[email.value].id), email)
  {
  }

  /** The expiry is inclusive: the mailed code is still good exactly five minutes after issue. */
  lemma AcceptedAtExactExpiry(env: Env, s: Store, email: Option<string>, password: Option<string>,
                              code: int, now: int, mailOk: bool)
    requires Valid(s) && IsOtpCode(code)
    requires CredentialsOk(env, s, email, password)
    ensures var o1 := Login(env, s, email, password, code, now, mailOk);
            VerifyOtp(env, o1.store, email, Some(OtpString(code)), now + 300000).response.status == 200 &&
            VerifyOtp(env, o1.store, email, Some(OtpString(code)), now + 300001).response == Fail(400, MsgInvalidOtp)
  {
  }

  /** A second login overwrites the first challenge: the first mailed code no longer works. */
  lemma SecondLoginSupersedesFirst(env: Env, s: Store, email: Option<string>, password: Option<string>,
                                   code1: int, code2: int, now: int, later: int, mailOk: bool)
    requires IsOtpCode(code1) && IsOtpCode(code2) && code1 != code2
    requires CredentialsOk(env, s, email, password)
    ensures var o1 := Login(env, s, email, password, code1, now, mailOk);
            var o2 := Login(env, o1.store, email, password, code2, now, mailOk);
            VerifyOtp(env, o2.store, email, Some(OtpString(code1)), later).response == Fail(400, MsgInvalidOtp)
  {
  }

  /**
   * Social login is idempotent on the user: a second call for the same email creates
   * nothing, leaves the store as the first call left it, and answers the same session.
   */
  lemma SocialLoginIdempotent(env: Env, s: Store, e: string, name1: Option<string>, name2: Option<string>)
    requires e in s.users || name1.Some?
    ensures var o1 := SocialLogin(env, s, Some(e), name1);
            var o2 := SocialLogin(env, o1.store, Some(e), name2);
            o2.store == o1.store && o2.response == o1.response && o1.response.status == 200
  {
  }
}
