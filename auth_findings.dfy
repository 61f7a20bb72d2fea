/**
 * Two handlers of `src/routes/userAuth.ts` answer with an error but do not return, so the
 * rest of the handler still runs. The lemmas below exhibit what that does to the store;
 * each is followed by the handler with the missing `return` added and the property the
 * error answer evidently promises, proved of it.
 */
module AuthFindings {
  import opened Wrappers
  import opened AuthFlow

  /**
   * `/verify-otp` as written: a refused code for a pending signup still creates the account,
   * from the stored password hash and name, while answering "Invalid or expired OTP".
   */
  lemma RefusedCodeStillCreatesUser(env: Env, s: Store, e: string, otp: Option<string>, now: int)
    requires e in s.otpMap && e !in s.users
    requires s.otpMap[e].password.Some? && s.otpMap[e].name.Some?
    requires Rejects(Lookup(s.otpMap, Some(e)), otp, now)
    ensures var o := VerifyOtp(env, s, Some(e), otp, now);
            o.response == Fail(400, MsgInvalidOtp) && e in o.store.users &&
            o.store.users[e] == User(s.nextId, s.otpMap[e].name.value, e, s.otpMap[e].password.value)
  {
  }

  /**
   * `/verify-otp` with `return` after the 400: a refused attempt changes nothing, and a user
   * is created only by the stored code presented before the challenge expires.
   */
  function VerifyOtpReturning(env: Env, s: Store, email: Option<string>, otp: Option<string>, now: int)
    : (o: Outcome)
    ensures Rejects(Lookup(s.otpMap, email), otp, now) ==> o == Outcome(s, Fail(400, MsgInvalidOtp))
    ensures o.store.users != s.users ==>
      email.Some? && email.value in s.otpMap && otp == Some(s.otpMap[email.value].otp) &&
      now <= s.otpMap[email.value].expires && o.response.status == 200
    ensures o.store.users != s.users ==> email.value !in o.store.otpMap
  {
    if Rejects(Lookup(s.otpMap, email), otp, now) then Outcome(s, Fail(400, MsgInvalidOtp))
    else VerifyOtp(env, s, email, otp, now)
  }

  /**
   * `/resend-otp` as written: for a non-empty email that has no user it answers 404 and still
   * issues a login challenge and, when the transport succeeds, mails its code. (For "" the
   * 404 is a second response, which throws before the challenge is written.)
   */
  lemma UnknownEmailGetsChallenge(env: Env, s: Store, e: string, code: int, now: int, mailOk: bool)
    requires IsOtpCode(code) && e != "" && e !in s.users
    ensures var o := ResendOtp(env, s, Some(e), code, now, mailOk);
            o.response == Fail(404, MsgUserNotFound) &&
            e in o.store.otpMap && o.store.otpMap[e] == NewChallenge(code, now, None, None) &&
            (mailOk ==> o.store.outbox == s.outbox + [ResendMail(e, OtpString(code))])
  {
  }

  /**
   * Such a challenge can never complete: presenting its code in time answers 500
   * "Failed to create user", since a login challenge carries no password hash or name.
   */
  lemma UnknownEmailChallengeCannotComplete(env: Env, s: Store, e: string, code: int, now: int, mailOk: bool)
    requires IsOtpCode(code) && e != "" && e !in s.users
    ensures var o1 := ResendOtp(env, s, Some(e), code, now, mailOk);
            var o2 := VerifyOtp(env, o1.store, Some(e), Some(OtpString(code)), now);
            o2.response == Fail(500, MsgCreateFailed) && e !in o2.store.users && e !in o2.store.otpMap
  {
  }

  /**
   * `/resend-otp` with `return` after the 400 and the 404: a challenge is issued only for an
   * email that belongs to a user.
   */
  function ResendOtpReturning(env: Env, s: Store, email: Option<string>, code: int, now: int, mailOk: bool)
    : (o: Outcome)
    requires IsOtpCode(code)
    ensures !Truthy(email) ==> o == Outcome(s, Fail(400, MsgEmailRequired))
    ensures Truthy(email) && email.value !in s.users ==> o == Outcome(s, Fail(404, MsgUserNotFound))
    ensures o.store.otpMap != s.otpMap ==>
      Truthy(email) && email.value in s.users &&
      o.store.otpMap == s.otpMap[email.value := NewChallenge(code, now, None, None)]
  {
    if !Truthy(email) then Outcome(s, Fail(400, MsgEmailRequired))
    else if email.value !in s.users then Outcome(s, Fail(404, MsgUserNotFound))
    else ResendOtp(env, s, email, code, now, mailOk)
  }
}
